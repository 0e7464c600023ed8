/**
 * `parseAST` on the tokens of
 *
 *     class A:
 *     # divider
 *     def f(x): "d" ...
 *
 * As written the stream is still eager from the enum's commit when the assignment
 * loop probes `def f`, and that probe throws; starting each top-level parse
 * non-eager reads one enum and one method. Then two enums in a row, which throw
 * unless the items are guarded, and a method without parameters, which throws
 * unless the parameters are guarded.
 */
module AstScenarios {
  import opened Wrappers
  import opened Strings
  import opened Tokenizer
  import opened Merging
  import opened Base
  import opened BaseLaws
  import opened TokenParsers
  import opened Ast
  import opened AstLaws

  function Sample(): seq<Token>
  {
    [Token(NAME, "class"), Token(NAME, "A"), Token(OP, ":"), Token(COMMENT, " divider"),
     Token(NAME, "def"), Token(NAME, "f"), Token(OP, "("), Token(NAME, "x"), Token(OP, ")"),
     Token(OP, ":"), Token(STRING, "d"), Token(OP, "..."), EndToken]
  }

  /** The sample token by token, so that proofs need not index the display. */
  lemma SampleTokens(toks: seq<Token>)
    requires toks == Sample()
    ensures |toks| == 13
    ensures toks[0] == Token(NAME, "class") && toks[1] == Token(NAME, "A") && toks[2] == Token(OP, ":")
    ensures toks[3] == Token(COMMENT, " divider") && toks[4] == Token(NAME, "def") && toks[5] == Token(NAME, "f")
    ensures toks[6] == Token(OP, "(") && toks[7] == Token(NAME, "x") && toks[8] == Token(OP, ")")
    ensures toks[9] == Token(OP, ":") && toks[10] == Token(STRING, "d") && toks[11] == Token(OP, "...")
    ensures toks[12] == EndToken
  {
    var enum := [Token(NAME, "class"), Token(NAME, "A"), Token(OP, ":"), Token(COMMENT, " divider")];
    var def := [Token(NAME, "def"), Token(NAME, "f"), Token(OP, "("), Token(NAME, "x"), Token(OP, ")")];
    var body := [Token(OP, ":"), Token(STRING, "d"), Token(OP, "..."), EndToken];
    assert toks == enum + def + body;
    assert toks[..4] == enum && toks[4..9] == def && toks[9..] == body;
  }

  /** The enum `A`: its two named fields, still marked as an object only under the corrected merge. */
  function EnumA(keepTag: bool): Value
  {
    Obj(map["name" := Str("A"), "items" := Arr([])], keepTag)
  }

  /** The parameter `x`, its type defaulted. */
  function ParamX(): Value
  {
    Obj(map["name" := Str("x"), "type" := Str("Any")], false)
  }

  /** The name and the parameters of `f`, as one object. */
  function Signed(): map<string, Value>
  {
    map["name" := Str("f"), "params" := Arr([ParamX()])]
  }

  /** The name and the empty parameter list of `g`. */
  function Bared(): map<string, Value>
  {
    map["name" := Str("g"), "params" := Arr([])]
  }

  /**
   * `def NAME ( params )` with no return type, `fields` holding the name and the
   * parameters. As written the union of name and parameters is unmarked, so the
   * missing return type is appended to a list beside it.
   */
  function Signature(fields: map<string, Value>, keepTag: bool): Value
  {
    if keepTag then Obj(fields, true) else Arr([Obj(fields, false), Null])
  }

  /** `def NAME ( params ) : "d"` */
  function Documented(fields: map<string, Value>, keepTag: bool): Value
  {
    if keepTag then Obj(fields["docstring" := Str("d")], true)
    else Arr([Obj(fields, false), Null, Obj(map["docstring" := Str("d")], true)])
  }

  /** The method with docstring `d`, its return type defaulted. */
  function MethodOf(fields: map<string, Value>): Value
  {
    Obj(fields["docstring" := Str("d")]["returns" := Str("Any")], false)
  }

  /**
   * The method as written: the list the merges built, spread into an object by
   * index, with the return type defaulted beside the indices.
   */
  function MethodAsWritten(fields: map<string, Value>): Value
  {
    Obj(map["0" := Obj(fields, false), "1" := Null, "2" := Obj(map["docstring" := Str("d")], true),
            "returns" := Str("Any")], false)
  }

  /** The method under the merge `keepTag` picks. */
  function MethodValue(fields: map<string, Value>, keepTag: bool): Value
  {
    if keepTag then MethodOf(fields) else MethodAsWritten(fields)
  }

  // ---- single steps ----

  lemma Then(a: Parser, b: Parser, toks: seq<Token>, st: State, va: Value, sa: State, vb: Value, sb: State, k: bool)
    requires Eval(a, toks, st, k) == Res(Success(va), sa)
    requires Eval(b, toks, sa, k) == Res(Success(vb), sb)
    ensures Eval(And(a, b), toks, st, k) == Res(Success(MergeWith(va, vb, k)), sb)
  {
  }

  lemma Mapped(p: Parser, f: Value -> Value, toks: seq<Token>, st: State, v: Value, s: State, k: bool)
    requires Eval(p, toks, st, k) == Res(Success(v), s)
    ensures Eval(Map(p, f), toks, st, k) == Res(Success(f(v)), s)
  {
  }

  lemma Dropping(p: Parser, toks: seq<Token>, st: State, v: Value, s: State, k: bool)
    requires Eval(p, toks, st, k) == Res(Success(v), s)
    ensures Eval(Drop(p), toks, st, k) == Res(Success(Dropped), s)
  {
  }

  lemma Keying(p: Parser, key: string, toks: seq<Token>, st: State, v: Value, s: State, k: bool)
    requires Eval(p, toks, st, k) == Res(Success(v), s)
    ensures Eval(As(p, key), toks, st, k) == Res(Success(Obj(map[key := v], true)), s)
  {
  }

  /** A part that fails without matching makes `maybe` give `null` where it stood. */
  lemma Absent(p: Parser, toks: seq<Token>, st: State, k: bool)
    requires Eval(p, toks, st, k) == Res(Failure(false), st)
    ensures Eval(Maybe(p), toks, st, k) == Res(Success(Null), st)
    ensures Eval(Drop(Maybe(p)), toks, st, k) == Res(Success(Dropped), st)
  {
  }

  /** `name`, `op` or `string` on the token it asks for. */
  lemma Takes(kind: TokenType, value: Option<string>, text: string, toks: seq<Token>, st: State, k: bool)
    requires st.offset < |toks| && toks[st.offset] == Token(kind, text)
    requires value.None? || value == Some(text)
    ensures Eval(Map(Match(kind, value), TextOf), toks, st, k) == Res(Success(Str(text)), Took(st))
  {
    TokenContract(kind, value, toks, st, k);
  }

  /** `name`, `op` or `string` where the token is not the one it asks for. */
  lemma Misses(kind: TokenType, value: Option<string>, toks: seq<Token>, st: State, k: bool)
    requires !(st.offset < |toks| && Matches(toks[st.offset], kind, value))
    ensures Eval(Match(kind, value), toks, st, k) == Res(Failure(false), st)
    ensures Eval(Map(Match(kind, value), TextOf), toks, st, k) == Res(Failure(false), st)
  {
    TokenContract(kind, value, toks, st, k);
  }

  /** Sequencing two tagged objects unites their fields; only the corrected merge keeps the marker. */
  lemma Unite(a: map<string, Value>, key: string, v: Value, k: bool)
    ensures MergeWith(Obj(a, true), Obj(map[key := v], true), k) == Obj(a[key := v], k)
  {
    assert a + map[key := v] == a[key := v];
  }

  /** An object followed by a plain value: a marked object absorbs it, an unmarked one starts a list. */
  lemma Absorbs(fields: map<string, Value>, v: Value, k: bool)
    requires !v.Dropped? && !v.Arr? && !IsObject(v)
    ensures MergeWith(Obj(fields, k), v, k) == if k then Obj(fields, true) else Arr([Obj(fields, false), v])
  {
  }

  /** A list followed by a value that is no list: the value is appended. */
  lemma Appends(items: seq<Value>, v: Value, k: bool)
    requires !v.Dropped? && !v.Arr?
    ensures MergeWith(Arr(items), v, k) == Arr(items + [v])
  {
  }

  /** A dropped `name`/`op` on the token with that text. */
  lemma DropsToken(kind: TokenType, text: string, toks: seq<Token>, st: State, k: bool)
    requires st.offset < |toks| && toks[st.offset] == Token(kind, text)
    ensures Eval(Drop(Map(Match(kind, Some(text)), TextOf)), toks, st, k) == Res(Success(Dropped), Took(st))
  {
    Takes(kind, Some(text), text, toks, st, k);
  }

  /** A keyed `name`/`string` of any text. */
  lemma KeysToken(kind: TokenType, key: string, text: string, toks: seq<Token>, st: State, k: bool)
    requires st.offset < |toks| && toks[st.offset] == Token(kind, text)
    ensures Eval(As(Map(Match(kind, None), TextOf), key), toks, st, k) == Res(Success(Obj(map[key := Str(text)], true)), Took(st))
  {
    Takes(kind, None, text, toks, st, k);
  }

  // ---- the sample ----

  lemma SampleComments(toks: seq<Token>, e: bool, k: bool)
    requires toks == Sample()
    ensures Eval(Comments(), toks, State(0, e), k) == Res(Success(Dropped), State(0, e))
    ensures Eval(Comments(), toks, State(3, e), k) == Res(Success(Dropped), State(4, e))
    ensures Eval(Comments(), toks, State(12, e), k) == Res(Success(Dropped), State(12, e))
  {
    SampleTokens(toks);
    CommentsSkip(toks, State(0, e), k);
    CommentsSkip(toks, State(3, e), k);
    CommentsSkip(toks, State(12, e), k);
    assert CommentsEnd(toks, 4) == 4;
  }

  /** No import: `from` is not there, so the `many` stops at once. */
  lemma SampleImports(toks: seq<Token>, k: bool)
    requires toks == Sample()
    ensures Eval(Drop(Many(ImportParser())), toks, State(0, false), k) == Res(Success(Dropped), State(0, false))
  {
    SampleTokens(toks);
    var st := State(0, false);
    Misses(NAME, Some("from"), toks, st, k);
    assert Head(ImportParser()) == Match(NAME, Some("from"));
    HeadFails(ImportParser(), toks, st, k);
    assert Eval(Many(ImportParser()), toks, st, k) == Res(Success(Arr([])), st);
  }

  /**
   * When the parser that runs first fails without matching and without `if`, the
   * whole sequence fails the same way and leaves the state alone.
   */
  lemma {:induction false} HeadFails(p: Parser, toks: seq<Token>, st: State, k: bool)
    requires Eval(Head(p), toks, st, k) == Res(Failure(false), st)
    ensures Eval(p, toks, st, k) == Res(Failure(false), st)
  {
    match p
    case Map(q, _) => HeadFails(q, toks, st, k);
    case Commit(q) => HeadFails(q, toks, st, k);
    case And(a, _) => HeadFails(a, toks, st, k);
    case _ =>
  }

  lemma EnumHead(guard: bool)
    ensures Head(EnumParserWith(guard)) == Match(NAME, Some("class"))
    ensures Head(MethodParserWith(guard)) == Match(NAME, Some("def"))
    ensures Head(EnumItem()) == Match(NAME, None)
  {
    MethodHeadIsDef(guard);
  }

  /** `class NAME :` */
  function EnumPrefix(): Parser
  {
    And(And(Commit(Drop(Name(Some("class")))), As(Name(None), "name")), Drop(Op(Some(":"))))
  }

  /** `def NAME` */
  function MethodHead(): Parser
  {
    And(Commit(Drop(Name(Some("def")))), As(Name(None), "name"))
  }

  /** `( params [,] )` */
  function MethodArgs(guard: bool): Parser
  {
    And(And(And(Drop(Op(Some("("))), ParamsWith(guard)), Drop(Maybe(Op(Some(","))))), Drop(Op(Some(")"))))
  }

  /** `[-> TYPE]` */
  function MethodReturns(): Parser
  {
    Maybe(And(Drop(Op(Some("->"))), As(TypeScan({":"}), "returns")))
  }

  lemma Prefixes(guard: bool)
    ensures EnumParserWith(guard) == And(And(EnumPrefix(), Drop(Maybe(StringP(None)))), As(Many(ItemParser(guard)), "items"))
    ensures MethodParserWith(guard) == Map(And(And(And(And(And(MethodHead(), MethodArgs(guard)), MethodReturns()),
      Drop(Op(Some(":")))), As(StringP(None), "docstring")), Drop(Op(Some("...")))), WithDefaultReturns)
  {
  }

  /** `class NAME :` on the enum's name at `st.offset + 1`. */
  lemma EnumPrefixReads(toks: seq<Token>, st: State, name: string, k: bool)
    requires st.offset + 2 < |toks| && !st.eager
    requires toks[st.offset] == Token(NAME, "class") && toks[st.offset + 1] == Token(NAME, name)
    requires toks[st.offset + 2] == Token(OP, ":")
    ensures Eval(EnumPrefix(), toks, st, k)
         == Res(Success(Obj(map["name" := Str(name)], true)), State(st.offset + 3, true))
  {
    var keyword := Commit(Drop(Name(Some("class"))));
    var s1, s2 := State(st.offset + 1, true), State(st.offset + 2, true);
    DropsToken(NAME, "class", toks, st, k);
    assert Eval(keyword, toks, st, k) == Res(Success(Dropped), s1);
    KeysToken(NAME, "name", name, toks, s1, k);
    var named := Obj(map["name" := Str(name)], true);
    Then(keyword, As(Name(None), "name"), toks, st, Dropped, s1, named, s2, k);
    DropsToken(OP, ":", toks, s2, k);
    Then(And(keyword, As(Name(None), "name")), Drop(Op(Some(":"))), toks, st, named, s2, Dropped, State(st.offset + 3, true), k);
  }

  /** An enum whose prefix, docstring and items are known: the name and the items, as one object. */
  lemma EnumReads(toks: seq<Token>, st: State, name: string, docAt: State, at: State, k: bool, guard: bool)
    requires Eval(EnumPrefix(), toks, st, k) == Res(Success(Obj(map["name" := Str(name)], true)), docAt)
    requires Eval(Drop(Maybe(StringP(None))), toks, docAt, k) == Res(Success(Dropped), at)
    requires Eval(Many(ItemParser(guard)), toks, at, k) == Res(Success(Arr([])), at)
    ensures Eval(EnumParserWith(guard), toks, st, k)
         == Res(Success(Obj(map["name" := Str(name), "items" := Arr([])], k)), at)
  {
    var named := Obj(map["name" := Str(name)], true);
    var items := Obj(map["items" := Arr([])], true);
    Then(EnumPrefix(), Drop(Maybe(StringP(None))), toks, st, named, docAt, Dropped, at, k);
    Keying(Many(ItemParser(guard)), "items", toks, at, Arr([]), at, k);
    Then(And(EnumPrefix(), Drop(Maybe(StringP(None)))), As(Many(ItemParser(guard)), "items"), toks, st, named, at, items, at, k);
    Unite(named.fields, "items", Arr([]), k);
    Prefixes(guard);
  }

  /** No member: at a token that is no name, the items stop at once, guarded or not. */
  lemma NoItems(toks: seq<Token>, at: State, k: bool, guard: bool)
    requires !(at.offset < |toks| && toks[at.offset].kind == NAME)
    ensures Eval(Many(ItemParser(guard)), toks, at, k) == Res(Success(Arr([])), at)
  {
    if guard {
      GuardStops(toks, at, k);
    } else {
      Misses(NAME, None, toks, at, k);
      EnumHead(guard);
      HeadFails(EnumItem(), toks, at, k);
    }
    assert Eval(ItemParser(guard), toks, at, k) == Res(Failure(false), at);
  }

  /** `class A :`, no docstring, and no member since a comment follows. */
  lemma SampleEnum(toks: seq<Token>, st: State, k: bool, guard: bool)
    requires toks == Sample() && st == State(0, false)
    ensures Eval(EnumParserWith(guard), toks, st, k) == Res(Success(EnumA(k)), State(3, true))
  {
    SampleTokens(toks);
    var at := State(3, true);
    EnumPrefixReads(toks, st, "A", k);
    Misses(STRING, None, toks, at, k);
    Absent(StringP(None), toks, at, k);
    NoItems(toks, at, k, guard);
    EnumReads(toks, st, "A", at, at, k, guard);
  }

  lemma SampleNoSecondEnum(toks: seq<Token>, e: bool, k: bool, guard: bool)
    requires toks == Sample()
    ensures Eval(EnumParserWith(guard), toks, State(4, e), k) == Res(Failure(false), State(4, e))
  {
    SampleTokens(toks);
    Misses(NAME, Some("class"), toks, State(4, e), k);
    EnumHead(guard);
    HeadFails(EnumParserWith(guard), toks, State(4, e), k);
  }

  /** `def f` read as an assignment: a name, then no `=`. */
  lemma SampleAssignment(toks: seq<Token>, e: bool, k: bool)
    requires toks == Sample()
    ensures var r := Eval(Assignment(), toks, State(4, e), k);
      if e then r.out.Fatal? else r == Res(Failure(true), State(4, e))
  {
    SampleTokens(toks);
    var st := State(4, e);
    Takes(NAME, None, "def", toks, st, k);
    Dropping(Name(None), toks, st, Str("def"), State(5, e), k);
    Misses(OP, Some("="), toks, State(5, e), k);
    var p1 := And(Drop(Name(None)), Drop(Op(Some("="))));
    assert Eval(p1, toks, st, k) == TryBacktrack(toks, State(5, e), 4, true);
    var p2 := And(p1, Drop(Name(None)));
    var p3 := And(p2, Drop(Maybe(Op(Some("(")))));
    var p4 := And(p3, Drop(Maybe(Op(Some(")")))));
    if e {
      assert Eval(p1, toks, st, k).out.Fatal?;
      assert Eval(p2, toks, st, k).out.Fatal?;
      assert Eval(p3, toks, st, k).out.Fatal?;
      assert Eval(p4, toks, st, k).out.Fatal?;
    } else {
      assert Eval(p1, toks, st, k) == Res(Failure(true), st);
      assert Eval(p2, toks, st, k) == Res(Failure(true), st);
      assert Eval(p3, toks, st, k) == Res(Failure(true), st);
      assert Eval(p4, toks, st, k) == Res(Failure(true), st);
    }
  }

  /** The name `x`, with no `*` before it. */
  lemma SampleParamName(toks: seq<Token>, st: State, k: bool)
    requires toks == Sample() && st == State(7, true)
    ensures Eval(And(Drop(Maybe(Or(Op(Some("**")), Op(Some("*"))))), As(Name(None), "name")), toks, st, k)
         == Res(Success(Obj(map["name" := Str("x")], true)), State(8, true))
  {
    SampleTokens(toks);
    Misses(OP, Some("**"), toks, st, k);
    Misses(OP, Some("*"), toks, st, k);
    var star := Or(Op(Some("**")), Op(Some("*")));
    assert Eval(star, toks, st, k) == Res(Failure(false), st);
    Absent(star, toks, st, k);
    Takes(NAME, None, "x", toks, st, k);
    Keying(Name(None), "name", toks, st, Str("x"), State(8, true), k);
    Then(Drop(Maybe(star)), As(Name(None), "name"), toks, st, Dropped, st, Obj(map["name" := Str("x")], true), State(8, true), k);
  }

  /** `x`: a parameter with neither a type nor a default. */
  lemma SampleParam(toks: seq<Token>, st: State, k: bool)
    requires toks == Sample() && st == State(7, true)
    ensures Eval(Param(), toks, st, k) == Res(Success(ParamX()), State(8, true))
  {
    SampleTokens(toks);
    var after := State(8, true);
    var name := Obj(map["name" := Str("x")], true);
    var first := And(Drop(Maybe(Or(Op(Some("**")), Op(Some("*"))))), As(Name(None), "name"));
    SampleParamName(toks, st, k);
    Misses(OP, Some(":"), toks, after, k);
    var colon := And(Drop(Op(Some(":"))), As(TypeScan({",", ")", "="}), "type"));
    assert Eval(colon, toks, after, k) == Res(Failure(false), after);
    Absent(colon, toks, after, k);
    Then(first, Maybe(colon), toks, st, name, after, Null, after, k);
    Misses(OP, Some("="), toks, after, k);
    var eq := And(Drop(Op(Some("="))), As(Constant(), "default"));
    assert Eval(eq, toks, after, k) == Res(Failure(false), after);
    Absent(eq, toks, after, k);
    Then(And(first, Maybe(colon)), Maybe(eq), toks, st, name, after, Null, after, k);
    var body := And(And(first, Maybe(colon)), Maybe(eq));
    Mapped(body, WithDefaultType, toks, st, name, after, k);
    assert WithDefaultType(name) == ParamX();
  }

  /** `x`, guarded or not: the guard passes at a name. */
  lemma SampleGuardedParam(toks: seq<Token>, st: State, k: bool, guard: bool)
    requires toks == Sample() && st == State(7, true)
    ensures Eval(ParamParser(guard), toks, st, k) == Res(Success(ParamX()), State(8, true))
  {
    SampleTokens(toks);
    SampleParam(toks, st, k);
    if guard {
      ParamGuardPasses(toks, st, k);
    }
  }

  /** No `,` after `x`: the `many` of further parameters stops at once. */
  lemma SampleNoMoreParams(toks: seq<Token>, k: bool, guard: bool)
    requires toks == Sample()
    ensures Eval(Many(And(Drop(Op(Some(","))), ParamParser(guard))), toks, State(8, true), k)
         == Res(Success(Arr([])), State(8, true))
  {
    SampleTokens(toks);
    var after := State(8, true);
    Misses(OP, Some(","), toks, after, k);
    var rest := And(Drop(Op(Some(","))), ParamParser(guard));
    assert Eval(rest, toks, after, k) == Res(Failure(false), after);
  }

  /** `x )`: the list of one parameter. */
  lemma SampleParamList(toks: seq<Token>, k: bool, guard: bool)
    requires toks == Sample()
    ensures Eval(SepBy(Op(Some(",")), ParamParser(guard)), toks, State(7, true), k)
         == Res(Success(Arr([ParamX()])), State(8, true))
  {
    var st, after := State(7, true), State(8, true);
    var param := ParamParser(guard);
    SampleGuardedParam(toks, st, k, guard);
    SampleNoMoreParams(toks, k, guard);
    var rest := And(Drop(Op(Some(","))), param);
    Then(param, Many(rest), toks, st, ParamX(), after, Arr([]), after, k);
    assert MergeWith(ParamX(), Arr([]), k) == Arr([ParamX()]) by {
      assert MergeWith(ParamX(), Arr([]), k).items == [ParamX()] + [];
    }
  }

  /** `x )`: a list of one parameter, keyed. */
  lemma SampleParams(toks: seq<Token>, st: State, k: bool, guard: bool)
    requires toks == Sample() && st == State(7, true)
    ensures Eval(ParamsWith(guard), toks, st, k) == Res(Success(Obj(map["params" := Arr([ParamX()])], true)), State(8, true))
  {
    var after := State(8, true);
    var list := SepBy(Op(Some(",")), ParamParser(guard));
    SampleParamList(toks, k, guard);
    assert Eval(Maybe(list), toks, st, k) == Res(Success(Arr([ParamX()])), after);
    Mapped(Maybe(list), OrEmpty, toks, st, Arr([ParamX()]), after, k);
    Keying(Map(Maybe(list), OrEmpty), "params", toks, st, Arr([ParamX()]), after, k);
  }

  /** `( x )` */
  lemma SampleArgs(toks: seq<Token>, st: State, k: bool, guard: bool)
    requires toks == Sample() && st == State(6, true)
    ensures Eval(MethodArgs(guard), toks, st, k) == Res(Success(Obj(map["params" := Arr([ParamX()])], true)), State(9, true))
  {
    SampleTokens(toks);
    var params := Obj(map["params" := Arr([ParamX()])], true);
    Takes(OP, Some("("), "(", toks, st, k);
    Dropping(Op(Some("(")), toks, st, Str("("), State(7, true), k);
    SampleParams(toks, State(7, true), k, guard);
    Then(Drop(Op(Some("("))), ParamsWith(guard), toks, st, Dropped, State(7, true), params, State(8, true), k);
    var a1 := And(Drop(Op(Some("("))), ParamsWith(guard));
    Misses(OP, Some(","), toks, State(8, true), k);
    Absent(Op(Some(",")), toks, State(8, true), k);
    Then(a1, Drop(Maybe(Op(Some(",")))), toks, st, params, State(8, true), Dropped, State(8, true), k);
    var a2 := And(a1, Drop(Maybe(Op(Some(",")))));
    Takes(OP, Some(")"), ")", toks, State(8, true), k);
    Dropping(Op(Some(")")), toks, State(8, true), Str(")"), State(9, true), k);
    Then(a2, Drop(Op(Some(")"))), toks, st, params, State(8, true), Dropped, State(9, true), k);
  }

  /** `def f` */
  lemma SampleMethodHead(toks: seq<Token>, st: State, k: bool)
    requires toks == Sample() && st == State(4, false)
    ensures Eval(MethodHead(), toks, st, k) == Res(Success(Obj(map["name" := Str("f")], true)), State(6, true))
  {
    SampleTokens(toks);
    var keyword := Commit(Drop(Name(Some("def"))));
    DropsToken(NAME, "def", toks, st, k);
    assert Eval(keyword, toks, st, k) == Res(Success(Dropped), State(5, true));
    KeysToken(NAME, "name", "f", toks, State(5, true), k);
    Then(keyword, As(Name(None), "name"), toks, st, Dropped, State(5, true), Obj(map["name" := Str("f")], true), State(6, true), k);
  }

  /** No `->` after the parameters. */
  lemma SampleNoReturns(toks: seq<Token>, at: State, k: bool)
    requires toks == Sample() && at == State(9, true)
    ensures Eval(MethodReturns(), toks, at, k) == Res(Success(Null), at)
  {
    SampleTokens(toks);
    Misses(OP, Some("->"), toks, at, k);
    var arrow := And(Drop(Op(Some("->"))), As(TypeScan({":"}), "returns"));
    assert Eval(arrow, toks, at, k) == Res(Failure(false), at);
    Absent(arrow, toks, at, k);
  }

  /** `def f ( x )`, no return type: one object, or as written a list of the object and `null`. */
  lemma SampleSignature(toks: seq<Token>, st: State, k: bool, guard: bool)
    requires toks == Sample() && st == State(4, false)
    ensures Eval(And(And(MethodHead(), MethodArgs(guard)), MethodReturns()), toks, st, k)
         == Res(Success(Signature(Signed(), k)), State(9, true))
  {
    SampleTokens(toks);
    var name := Obj(map["name" := Str("f")], true);
    var params := Obj(map["params" := Arr([ParamX()])], true);
    SampleMethodHead(toks, st, k);
    SampleArgs(toks, State(6, true), k, guard);
    Then(MethodHead(), MethodArgs(guard), toks, st, name, State(6, true), params, State(9, true), k);
    Unite(map["name" := Str("f")], "params", Arr([ParamX()]), k);
    SampleNoReturns(toks, State(9, true), k);
    Then(And(MethodHead(), MethodArgs(guard)), MethodReturns(), toks, st, Obj(Signed(), k), State(9, true), Null, State(9, true), k);
    Absorbs(Signed(), Null, k);
  }

  /** `def f ( x ) : "d"`: the docstring joins the object, or as written the list. */
  lemma SampleDocumented(toks: seq<Token>, st: State, k: bool, guard: bool)
    requires toks == Sample() && st == State(4, false)
    ensures Eval(And(And(And(And(MethodHead(), MethodArgs(guard)), MethodReturns()), Drop(Op(Some(":")))), As(StringP(None), "docstring")), toks, st, k)
         == Res(Success(Documented(Signed(), k)), State(11, true))
  {
    SampleTokens(toks);
    var m3 := And(And(MethodHead(), MethodArgs(guard)), MethodReturns());
    SampleSignature(toks, st, k, guard);
    DropsToken(OP, ":", toks, State(9, true), k);
    Then(m3, Drop(Op(Some(":"))), toks, st, Signature(Signed(), k), State(9, true), Dropped, State(10, true), k);
    KeysToken(STRING, "docstring", "d", toks, State(10, true), k);
    var doc := Obj(map["docstring" := Str("d")], true);
    Then(And(m3, Drop(Op(Some(":")))), As(StringP(None), "docstring"), toks, st, Signature(Signed(), k), State(10, true), doc, State(11, true), k);
    if k {
      Unite(Signed(), "docstring", Str("d"), k);
    } else {
      Appends([Obj(Signed(), false), Null], doc, k);
      assert [Obj(Signed(), false), Null] + [doc] == [Obj(Signed(), false), Null, doc];
    }
  }

  /** Spreading a list of three: its elements under "0", "1" and "2". */
  lemma SpreadThree(a: Value, b: Value, c: Value)
    ensures Spread([a, b, c]) == map["0" := a, "1" := b, "2" := c]
  {
    assert [a, b, c][..2] == [a, b] && [a, b][..1] == [a] && [a][..0] == [];
    assert NatToString(0) == "0" && NatToString(1) == "1" && NatToString(2) == "2";
    assert Spread([a]) == map["0" := a];
    assert Spread([a, b]) == map["0" := a, "1" := b];
  }

  /**
   * Defaulting the return type of a documented signature gives the method: the
   * fields and the docstring, or as written the spread of the list.
   */
  lemma ReturnsDefaulted(fields: map<string, Value>, k: bool)
    requires "returns" !in fields
    ensures WithDefaultReturns(Documented(fields, k)) == MethodValue(fields, k)
  {
    var doc := Obj(map["docstring" := Str("d")], true);
    if k {
      assert OwnFields(Documented(fields, k)) == fields["docstring" := Str("d")];
    } else {
      SpreadThree(Obj(fields, false), Null, doc);
      assert OwnFields(Documented(fields, k)) == map["0" := Obj(fields, false), "1" := Null, "2" := doc];
    }
  }

  /** `def f ( x ) : "d" ...`: the method, as one object under either merge, keyed differently. */
  lemma SampleMethod(toks: seq<Token>, st: State, k: bool, guard: bool)
    requires toks == Sample() && st == State(4, false)
    ensures Eval(MethodParserWith(guard), toks, st, k) == Res(Success(MethodValue(Signed(), k)), State(12, true))
  {
    SampleTokens(toks);
    var m5 := And(And(And(And(MethodHead(), MethodArgs(guard)), MethodReturns()), Drop(Op(Some(":")))), As(StringP(None), "docstring"));
    SampleDocumented(toks, st, k, guard);
    DropsToken(OP, "...", toks, State(11, true), k);
    Then(m5, Drop(Op(Some("..."))), toks, st, Documented(Signed(), k), State(11, true), Dropped, State(12, true), k);
    Mapped(And(m5, Drop(Op(Some("...")))), WithDefaultReturns, toks, st, Documented(Signed(), k), State(12, true), k);
    ReturnsDefaulted(Signed(), k);
    Prefixes(guard);
  }

  /** Where the name `def` is not, no method starts, guarded or not. */
  lemma NoMethodAt(toks: seq<Token>, st: State, k: bool, guard: bool)
    requires !(st.offset < |toks| && Matches(toks[st.offset], NAME, Some("def")))
    ensures Eval(MethodParserWith(guard), toks, st, k) == Res(Failure(false), st)
  {
    Misses(NAME, Some("def"), toks, st, k);
    EnumHead(guard);
    HeadFails(MethodParserWith(guard), toks, st, k);
  }

  lemma SampleNoSecondMethod(toks: seq<Token>, k: bool, guard: bool)
    requires toks == Sample()
    ensures Eval(MethodParserWith(guard), toks, State(12, false), k) == Res(Failure(false), State(12, false))
  {
    SampleTokens(toks);
    NoMethodAt(toks, State(12, false), k, guard);
  }

  lemma SampleEof(toks: seq<Token>, k: bool)
    requires toks == Sample()
    ensures Eval(Drop(Eof()), toks, State(12, false), k) == Res(Success(Dropped), State(13, false))
  {
    SampleTokens(toks);
    TokenContract(ENDMARKER, None, toks, State(12, false), k);
  }

  /** A round of a declaration loop whose item fails ends the loop where the round began. */
  lemma LoopStops(item: Parser, toks: seq<Token>, st: State, acc: seq<Value>, fx: Fixes, cs: State, after: State, m: bool)
    requires Consumes(item)
    requires Eval(Comments(), toks, Begin(st, fx.reset), fx.keepTag) == Res(Success(Dropped), cs)
    requires Eval(item, toks, Begin(cs, fx.reset), fx.keepTag) == Res(Failure(m), after)
    ensures Loop(item, toks, st, acc, fx) == Ok(Collected(acc, after.(offset := st.offset)))
  {
  }

  /** A round of a declaration loop whose item throws ends the loop with an error. */
  lemma LoopThrows(item: Parser, toks: seq<Token>, st: State, acc: seq<Value>, fx: Fixes, cs: State)
    requires Consumes(item)
    requires Eval(Comments(), toks, Begin(st, fx.reset), fx.keepTag) == Res(Success(Dropped), cs)
    requires Eval(item, toks, Begin(cs, fx.reset), fx.keepTag).out.Fatal?
    ensures Loop(item, toks, st, acc, fx).Err?
  {
  }

  /** A round of a declaration loop whose item succeeds adds its value and goes on from there. */
  lemma LoopGoesOn(item: Parser, toks: seq<Token>, st: State, acc: seq<Value>, fx: Fixes, cs: State, v: Value, after: State)
    requires Consumes(item)
    requires Eval(Comments(), toks, Begin(st, fx.reset), fx.keepTag) == Res(Success(Dropped), cs)
    requires Eval(item, toks, Begin(cs, fx.reset), fx.keepTag) == Res(Success(v), after)
    ensures Rem(toks, after) < Rem(toks, st)
    ensures Loop(item, toks, st, acc, fx) == Loop(item, toks, after, acc + [v], fx)
  {
    ConsumesAdvances(item, toks, Begin(cs, fx.reset), fx.keepTag);
  }

  /** A declaration loop that reads one item and then stops. */
  lemma LoopOnce(item: Parser, toks: seq<Token>, st: State, acc: seq<Value>, fx: Fixes, cs: State, v: Value, mid: State, cs2: State, after: State, m: bool)
    requires Consumes(item)
    requires Eval(Comments(), toks, Begin(st, fx.reset), fx.keepTag) == Res(Success(Dropped), cs)
    requires Eval(item, toks, Begin(cs, fx.reset), fx.keepTag) == Res(Success(v), mid)
    requires Eval(Comments(), toks, Begin(mid, fx.reset), fx.keepTag) == Res(Success(Dropped), cs2)
    requires Eval(item, toks, Begin(cs2, fx.reset), fx.keepTag) == Res(Failure(m), after)
    ensures Loop(item, toks, st, acc, fx) == Ok(Collected(acc + [v], after.(offset := mid.offset)))
  {
    LoopGoesOn(item, toks, st, acc, fx, cs, v, mid);
    LoopStops(item, toks, mid, acc + [v], fx, cs2, after, m);
  }

  lemma SampleEnumLoop(toks: seq<Token>, fx: Fixes)
    requires toks == Sample()
    ensures Loop(EnumParserWith(fx.guardItems), toks, State(0, false), [], fx)
         == Ok(Collected([EnumA(fx.keepTag)], State(3, !fx.reset)))
  {
    var enum := EnumParserWith(fx.guardItems);
    GrammarWellFormed(fx.guardItems, fx.guardParams);
    SampleComments(toks, false, fx.keepTag);
    SampleComments(toks, true, fx.keepTag);
    SampleEnum(toks, State(0, false), fx.keepTag, fx.guardItems);
    SampleNoSecondEnum(toks, !fx.reset, fx.keepTag, fx.guardItems);
    LoopOnce(enum, toks, State(0, false), [], fx, State(0, false), EnumA(fx.keepTag), State(3, true), State(4, !fx.reset), State(4, !fx.reset), false);
  }

  lemma SampleMethodLoop(toks: seq<Token>, fx: Fixes)
    requires toks == Sample() && fx.reset
    ensures Loop(MethodParserWith(fx.guardParams), toks, State(3, false), [], fx)
         == Ok(Collected([MethodValue(Signed(), fx.keepTag)], State(12, false)))
  {
    var k := fx.keepTag;
    var def := MethodParserWith(fx.guardParams);
    GrammarWellFormed(false, fx.guardParams);
    SampleComments(toks, false, k);
    SampleMethod(toks, State(4, false), k, fx.guardParams);
    SampleNoSecondMethod(toks, k, fx.guardParams);
    LoopOnce(def, toks, State(3, false), [], fx, State(4, false), MethodValue(Signed(), k), State(12, true), State(12, false), State(12, false), false);
  }

  lemma SampleAssignmentLoop(toks: seq<Token>, fx: Fixes)
    requires toks == Sample()
    ensures var r := Loop(Assignment(), toks, State(3, !fx.reset), [], fx);
      if fx.reset then r == Ok(Collected([], State(3, false))) else r.Err?
  {
    GrammarWellFormed(false, false);
    SampleComments(toks, false, fx.keepTag);
    SampleComments(toks, true, fx.keepTag);
    SampleAssignment(toks, !fx.reset, fx.keepTag);
    if fx.reset {
      LoopStops(Assignment(), toks, State(3, false), [], fx, State(4, false), State(4, false), true);
    }
  }

  /**
   * With each top-level parse starting non-eager, the sample gives one enum and one
   * method, whose values the merge decides; without that reset, as written, it
   * throws at `def`.
   */
  lemma DriverReadsSample(fx: Fixes)
    ensures fx.reset ==>
      DriverWith(Sample(), fx) == Ok(Parsed(Declarations([EnumA(fx.keepTag)], [MethodValue(Signed(), fx.keepTag)]), State(13, false)))
    ensures !fx.reset ==> DriverWith(Sample(), fx).Err?
  {
    var toks := Sample();
    var k := fx.keepTag;
    SampleComments(toks, false, k);
    SampleImports(toks, k);
    SampleEnumLoop(toks, fx);
    SampleAssignmentLoop(toks, fx);
    if fx.reset {
      SampleMethodLoop(toks, fx);
      SampleEof(toks, k);
      assert AfterAssignments(toks, [EnumA(k)], State(3, false), fx)
          == Ok(Parsed(Declarations([EnumA(k)], [MethodValue(Signed(), k)]), State(13, false)));
      assert AfterEnums(toks, Collected([EnumA(k)], State(3, false)), fx)
          == Ok(Parsed(Declarations([EnumA(k)], [MethodValue(Signed(), k)]), State(13, false)));
    } else {
      assert AfterEnums(toks, Collected([EnumA(k)], State(3, true)), fx).Err?;
    }
  }

  // ---- two enums in a row ----

  /** `class A: "doc"` directly followed by `class B:`, as in the layout of the builtins file. */
  function Pair(): seq<Token>
  {
    [Token(NAME, "class"), Token(NAME, "A"), Token(OP, ":"), Token(STRING, "doc"),
     Token(NAME, "class"), Token(NAME, "B"), Token(OP, ":"), EndToken]
  }

  lemma PairTokens(toks: seq<Token>)
    requires toks == Pair()
    ensures |toks| == 8
    ensures toks[0] == Token(NAME, "class") && toks[1] == Token(NAME, "A") && toks[2] == Token(OP, ":")
    ensures toks[3] == Token(STRING, "doc") && toks[4] == Token(NAME, "class") && toks[5] == Token(NAME, "B")
    ensures toks[6] == Token(OP, ":") && toks[7] == EndToken
  {
  }

  function EnumB(keepTag: bool): Value
  {
    Obj(map["name" := Str("B"), "items" := Arr([])], keepTag)
  }

  /**
   * Unguarded, the items of `A` probe `class B` as a member: a name, then no `:`,
   * on the stream the enum's commit made eager, which throws.
   */
  lemma PairUnguardedItemThrows(toks: seq<Token>, k: bool)
    requires toks == Pair()
    ensures Eval(Many(EnumItem()), toks, State(4, true), k).out.Fatal?
  {
    PairTokens(toks);
    var at := State(4, true);
    KeysToken(NAME, "name", "class", toks, at, k);
    Misses(OP, Some(":"), toks, State(5, true), k);
    var a1 := And(As(Name(None), "name"), Drop(Op(Some(":"))));
    assert Eval(a1, toks, at, k).out.Fatal?;
    var a2 := And(a1, As(Name(None), "type"));
    assert Eval(a2, toks, at, k).out.Fatal?;
    assert Eval(EnumItem(), toks, at, k).out.Fatal?;
  }

  /** No comment and no import before the first enum. */
  lemma PairPrelude(toks: seq<Token>, k: bool)
    requires toks == Pair()
    ensures Eval(Comments(), toks, State(0, false), k) == Res(Success(Dropped), State(0, false))
    ensures Eval(Drop(Many(ImportParser())), toks, State(0, false), k) == Res(Success(Dropped), State(0, false))
  {
    PairTokens(toks);
    var st := State(0, false);
    CommentsSkip(toks, st, k);
    assert CommentsEnd(toks, 0) == 0;
    Misses(NAME, Some("from"), toks, st, k);
    assert Head(ImportParser()) == Match(NAME, Some("from"));
    HeadFails(ImportParser(), toks, st, k);
    assert Eval(Many(ImportParser()), toks, st, k) == Res(Success(Arr([])), st);
  }

  /** Unguarded, the first enum throws at `class B`. */
  lemma PairFirstEnumThrows(toks: seq<Token>, k: bool)
    requires toks == Pair()
    ensures Eval(EnumParserWith(false), toks, State(0, false), k).out.Fatal?
  {
    PairTokens(toks);
    var st := State(0, false);
    var named := Obj(map["name" := Str("A")], true);
    EnumPrefixReads(toks, st, "A", k);
    Takes(STRING, None, "doc", toks, State(3, true), k);
    assert Eval(Drop(Maybe(StringP(None))), toks, State(3, true), k) == Res(Success(Dropped), State(4, true));
    PairUnguardedItemThrows(toks, k);
    assert Eval(As(Many(EnumItem()), "items"), toks, State(4, true), k).out.Fatal?;
    Then(EnumPrefix(), Drop(Maybe(StringP(None))), toks, st, named, State(3, true), Dropped, State(4, true), k);
    var a2 := And(EnumPrefix(), Drop(Maybe(StringP(None))));
    FatalSecond(a2, As(Many(EnumItem()), "items"), toks, st, named, State(4, true), k);
    Prefixes(false);
  }

  /** So, without the guard, `parseAST` throws, whatever the other corrections. */
  lemma PairUnguardedThrows(fx: Fixes)
    requires !fx.guardItems
    ensures DriverWith(Pair(), fx).Err?
  {
    var toks := Pair();
    var st := State(0, false);
    PairPrelude(toks, fx.keepTag);
    PairFirstEnumThrows(toks, fx.keepTag);
    assert Begin(st, fx.reset) == st;
    GrammarWellFormed(false, fx.guardParams);
    LoopThrows(EnumParserWith(false), toks, st, [], fx, st);
  }

  /** Guarded, the items stop at `class B`, and then at the end marker. */
  lemma PairEnums(toks: seq<Token>, k: bool)
    requires toks == Pair()
    ensures Eval(EnumParserWith(true), toks, State(0, false), k) == Res(Success(EnumA(k)), State(4, true))
    ensures Eval(EnumParserWith(true), toks, State(4, false), k) == Res(Success(EnumB(k)), State(7, true))
    ensures Eval(EnumParserWith(true), toks, State(4, true), k) == Res(Success(EnumB(k)), State(7, true))
  {
    PairTokens(toks);
    EnumPrefixReads(toks, State(0, false), "A", k);
    Takes(STRING, None, "doc", toks, State(3, true), k);
    assert Eval(Drop(Maybe(StringP(None))), toks, State(3, true), k) == Res(Success(Dropped), State(4, true));
    GuardStops(toks, State(4, true), k);
    assert Eval(Many(ItemParser(true)), toks, State(4, true), k) == Res(Success(Arr([])), State(4, true));
    EnumReads(toks, State(0, false), "A", State(3, true), State(4, true), k, true);
    PairSecondEnum(toks, k);
  }

  lemma PairSecondEnum(toks: seq<Token>, k: bool)
    requires toks == Pair()
    ensures Eval(EnumParserWith(true), toks, State(4, false), k) == Res(Success(EnumB(k)), State(7, true))
    ensures Eval(EnumParserWith(true), toks, State(4, true), k) == Res(Success(EnumB(k)), State(7, true))
  {
    PairTokens(toks);
    var at := State(7, true);
    Misses(STRING, None, toks, at, k);
    Absent(StringP(None), toks, at, k);
    NoItems(toks, at, k, true);
    EnumPrefixReads(toks, State(4, false), "B", k);
    EnumReads(toks, State(4, false), "B", at, at, k, true);
    PairSecondEnumEager(toks, k);
  }

  /** The second `class` on an eager stream: the commit sets what is already set. */
  lemma PairSecondEnumEager(toks: seq<Token>, k: bool)
    requires toks == Pair()
    ensures Eval(EnumParserWith(true), toks, State(4, true), k) == Res(Success(EnumB(k)), State(7, true))
  {
    PairTokens(toks);
    var st := State(4, true);
    var at := State(7, true);
    var keyword := Commit(Drop(Name(Some("class"))));
    DropsToken(NAME, "class", toks, st, k);
    assert Eval(keyword, toks, st, k) == Res(Success(Dropped), State(5, true));
    KeysToken(NAME, "name", "B", toks, State(5, true), k);
    var named := Obj(map["name" := Str("B")], true);
    Then(keyword, As(Name(None), "name"), toks, st, Dropped, State(5, true), named, State(6, true), k);
    DropsToken(OP, ":", toks, State(6, true), k);
    Then(And(keyword, As(Name(None), "name")), Drop(Op(Some(":"))), toks, st, named, State(6, true), Dropped, at, k);
    Misses(STRING, None, toks, at, k);
    Absent(StringP(None), toks, at, k);
    NoItems(toks, at, k, true);
    EnumReads(toks, st, "B", at, at, k, true);
  }

  /** Nothing follows the enums but the end marker. */
  lemma PairEnd(toks: seq<Token>, e: bool, k: bool, guard: bool)
    requires toks == Pair()
    ensures Eval(Comments(), toks, State(7, e), k) == Res(Success(Dropped), State(7, e))
    ensures Eval(EnumParserWith(true), toks, State(7, e), k) == Res(Failure(false), State(7, e))
    ensures Eval(Assignment(), toks, State(7, e), k) == Res(Failure(false), State(7, e))
    ensures Eval(MethodParserWith(guard), toks, State(7, e), k) == Res(Failure(false), State(7, e))
    ensures Eval(Drop(Eof()), toks, State(7, e), k) == Res(Success(Dropped), State(8, e))
  {
    PairTokens(toks);
    var st := State(7, e);
    CommentsSkip(toks, st, k);
    assert CommentsEnd(toks, 7) == 7;
    PairEndNoDeclaration(toks, e, k);
    NoMethodAt(toks, st, k, guard);
    TokenContract(ENDMARKER, None, toks, st, k);
  }

  /** At the end marker neither an enum nor an assignment begins. */
  lemma PairEndNoDeclaration(toks: seq<Token>, e: bool, k: bool)
    requires toks == Pair()
    ensures Eval(EnumParserWith(true), toks, State(7, e), k) == Res(Failure(false), State(7, e))
    ensures Eval(Assignment(), toks, State(7, e), k) == Res(Failure(false), State(7, e))
  {
    PairTokens(toks);
    var st := State(7, e);
    Misses(NAME, Some("class"), toks, st, k);
    Misses(NAME, None, toks, st, k);
    EnumHead(true);
    HeadFails(EnumParserWith(true), toks, st, k);
    assert Head(Assignment()) == Match(NAME, None);
    HeadFails(Assignment(), toks, st, k);
  }

  /** Guarded, the enum loop reads `A` and `B` and stops at the end marker. */
  lemma PairEnumLoop(toks: seq<Token>, fx: Fixes)
    requires toks == Pair() && fx.guardItems
    ensures Loop(EnumParserWith(true), toks, State(0, false), [], fx)
         == Ok(Collected([EnumA(fx.keepTag), EnumB(fx.keepTag)], State(7, !fx.reset)))
  {
    var k := fx.keepTag;
    var enum := EnumParserWith(true);
    PairTokens(toks);
    GrammarWellFormed(true, fx.guardParams);
    PairPrelude(toks, k);
    PairEnums(toks, k);
    LoopGoesOn(enum, toks, State(0, false), [], fx, State(0, false), EnumA(k), State(4, true));
    assert [] + [EnumA(k)] == [EnumA(k)];
    PairEnumLoopTail(toks, fx);
  }

  /** From `class B` on. */
  lemma PairEnumLoopTail(toks: seq<Token>, fx: Fixes)
    requires toks == Pair() && fx.guardItems
    ensures Loop(EnumParserWith(true), toks, State(4, true), [EnumA(fx.keepTag)], fx)
         == Ok(Collected([EnumA(fx.keepTag), EnumB(fx.keepTag)], State(7, !fx.reset)))
  {
    var k := fx.keepTag;
    var e := !fx.reset;
    PairTailRounds(toks, fx);
    LoopOnce(EnumParserWith(true), toks, State(4, true), [EnumA(k)], fx, State(4, e), EnumB(k), State(7, true), State(7, e), State(7, e), false);
    assert [EnumA(k)] + [EnumB(k)] == [EnumA(k), EnumB(k)];
  }

  /** The two rounds from `class B` on: the enum is read, then nothing more. */
  lemma PairTailRounds(toks: seq<Token>, fx: Fixes)
    requires toks == Pair()
    ensures Consumes(EnumParserWith(true))
    ensures Eval(Comments(), toks, Begin(State(4, true), fx.reset), fx.keepTag) == Res(Success(Dropped), State(4, !fx.reset))
    ensures Eval(EnumParserWith(true), toks, Begin(State(4, !fx.reset), fx.reset), fx.keepTag) == Res(Success(EnumB(fx.keepTag)), State(7, true))
    ensures Eval(Comments(), toks, Begin(State(7, true), fx.reset), fx.keepTag) == Res(Success(Dropped), State(7, !fx.reset))
    ensures Eval(EnumParserWith(true), toks, Begin(State(7, !fx.reset), fx.reset), fx.keepTag) == Res(Failure(false), State(7, !fx.reset))
  {
    var k := fx.keepTag;
    var e := !fx.reset;
    PairTokens(toks);
    GrammarWellFormed(true, fx.guardParams);
    PairEnums(toks, k);
    CommentsSkip(toks, State(4, e), k);
    assert CommentsEnd(toks, 4) == 4;
    PairEnd(toks, e, k, fx.guardParams);
  }

  /** After the enums, no assignment, no method, and the end marker. */
  lemma PairRest(toks: seq<Token>, enums: seq<Value>, fx: Fixes)
    requires toks == Pair()
    ensures AfterEnums(toks, Collected(enums, State(7, !fx.reset)), fx)
         == Ok(Parsed(Declarations(enums, []), State(8, !fx.reset)))
  {
    var k := fx.keepTag;
    var end := State(7, !fx.reset);
    GrammarWellFormed(true, fx.guardParams);
    PairEnd(toks, !fx.reset, k, fx.guardParams);
    LoopStops(Assignment(), toks, end, [], fx, end, end, false);
    LoopStops(MethodParserWith(fx.guardParams), toks, end, [], fx, end, end, false);
  }

  /**
   * With the items guarded, two enums in a row are read, whatever the other
   * corrections; nothing else follows them here, so even the eager flag left set
   * as written does no harm.
   */
  lemma DriverReadsPair(fx: Fixes)
    requires fx.guardItems
    ensures DriverWith(Pair(), fx) == Ok(Parsed(Declarations([EnumA(fx.keepTag), EnumB(fx.keepTag)], []), State(8, !fx.reset)))
  {
    var toks := Pair();
    PairPrelude(toks, fx.keepTag);
    PairEnumLoop(toks, fx);
    PairRest(toks, [EnumA(fx.keepTag), EnumB(fx.keepTag)], fx);
  }

  // ---- a method without parameters ----

  /** `def g(): "d" ...` */
  function Bare(): seq<Token>
  {
    [Token(NAME, "def"), Token(NAME, "g"), Token(OP, "("), Token(OP, ")"), Token(OP, ":"),
     Token(STRING, "d"), Token(OP, "..."), EndToken]
  }

  lemma BareTokens(toks: seq<Token>)
    requires toks == Bare()
    ensures |toks| == 8
    ensures toks[0] == Token(NAME, "def") && toks[1] == Token(NAME, "g") && toks[2] == Token(OP, "(")
    ensures toks[3] == Token(OP, ")") && toks[4] == Token(OP, ":") && toks[5] == Token(STRING, "d")
    ensures toks[6] == Token(OP, "...") && toks[7] == EndToken
  {
  }

  lemma FatalFirst(a: Parser, b: Parser, toks: seq<Token>, st: State, k: bool)
    requires Eval(a, toks, st, k).out.Fatal?
    ensures Eval(And(a, b), toks, st, k).out.Fatal?
  {
  }

  lemma FatalSecond(a: Parser, b: Parser, toks: seq<Token>, st: State, va: Value, sa: State, k: bool)
    requires Eval(a, toks, st, k) == Res(Success(va), sa)
    requires Eval(b, toks, sa, k).out.Fatal?
    ensures Eval(And(a, b), toks, st, k).out.Fatal?
  {
  }

  lemma FatalInside(q: Parser, f: Value -> Value, toks: seq<Token>, st: State, k: bool)
    requires Eval(q, toks, st, k).out.Fatal?
    ensures Eval(Map(q, f), toks, st, k).out.Fatal?
    ensures Eval(Maybe(q), toks, st, k).out.Fatal?
  {
  }

  /**
   * Inside the method's commit the stream is eager. A parameter opens with an optional
   * `*`/`**`, which succeeds on `)` without taking it; the name that must follow is
   * missing, and `and` reports a failure after a success as matched, which throws.
   */
  lemma BareParamThrows(toks: seq<Token>, st: State, k: bool)
    requires toks == Bare() && st == State(3, true)
    ensures Eval(Param(), toks, st, k).out.Fatal?
  {
    BareTokens(toks);
    Misses(OP, Some("**"), toks, st, k);
    Misses(OP, Some("*"), toks, st, k);
    var star := Or(Op(Some("**")), Op(Some("*")));
    assert Eval(star, toks, st, k) == Res(Failure(false), st);
    Absent(star, toks, st, k);
    Misses(NAME, None, toks, st, k);
    assert Eval(As(Name(None), "name"), toks, st, k) == Res(Failure(false), st);
    var first := And(Drop(Maybe(star)), As(Name(None), "name"));
    assert Eval(first, toks, st, k) == TryBacktrack(toks, st, 3, true);
    var colon := Maybe(And(Drop(Op(Some(":"))), As(TypeScan({",", ")", "="}), "type")));
    var eq := Maybe(And(Drop(Op(Some("="))), As(Constant(), "default")));
    FatalFirst(first, colon, toks, st, k);
    FatalFirst(And(first, colon), eq, toks, st, k);
    FatalInside(And(And(first, colon), eq), WithDefaultType, toks, st, k);
  }

  /** So, as written, `def g(): "d" ...` is a syntax error, whichever the merge. */
  lemma EmptyParamsThrow(toks: seq<Token>, k: bool)
    requires toks == Bare()
    ensures Eval(MethodParser(), toks, State(0, false), k).out.Fatal?
  {
    BareTokens(toks);
    var st := State(0, false);
    var keyword := Commit(Drop(Name(Some("def"))));
    DropsToken(NAME, "def", toks, st, k);
    assert Eval(keyword, toks, st, k) == Res(Success(Dropped), State(1, true));
    KeysToken(NAME, "name", "g", toks, State(1, true), k);
    var name := Obj(map["name" := Str("g")], true);
    Then(keyword, As(Name(None), "name"), toks, st, Dropped, State(1, true), name, State(2, true), k);
    DropsToken(OP, "(", toks, State(2, true), k);
    BareParamThrows(toks, State(3, true), k);
    var list := SepBy(Op(Some(",")), Param());
    FatalFirst(Param(), Many(And(Drop(Op(Some(","))), Param())), toks, State(3, true), k);
    FatalInside(list, OrEmpty, toks, State(3, true), k);
    FatalInside(Map(Maybe(list), OrEmpty), (v: Value) => v, toks, State(3, true), k);
    assert Eval(Params(), toks, State(3, true), k).out.Fatal?;
    FatalSecond(Drop(Op(Some("("))), Params(), toks, State(2, true), Dropped, State(3, true), k);
    var a1 := And(Drop(Op(Some("("))), Params());
    FatalFirst(a1, Drop(Maybe(Op(Some(",")))), toks, State(2, true), k);
    FatalFirst(And(a1, Drop(Maybe(Op(Some(","))))), Drop(Op(Some(")"))), toks, State(2, true), k);
    FatalSecond(MethodHead(), MethodArgs(false), toks, st, name, State(2, true), k);
    var m2 := And(MethodHead(), MethodArgs(false));
    FatalFirst(m2, MethodReturns(), toks, st, k);
    FatalFirst(And(m2, MethodReturns()), Drop(Op(Some(":"))), toks, st, k);
    var m4 := And(And(m2, MethodReturns()), Drop(Op(Some(":"))));
    FatalFirst(m4, As(StringP(None), "docstring"), toks, st, k);
    FatalFirst(And(m4, As(StringP(None), "docstring")), Drop(Op(Some("..."))), toks, st, k);
    FatalInside(And(And(m4, As(StringP(None), "docstring")), Drop(Op(Some("...")))), WithDefaultReturns, toks, st, k);
    Prefixes(false);
  }

  /** Guarded, the parameters of `( )` are absent: an empty list, with `)` still to read. */
  lemma BareParams(toks: seq<Token>, k: bool)
    requires toks == Bare()
    ensures Eval(ParamsWith(true), toks, State(3, true), k) == Res(Success(Obj(map["params" := Arr([])], true)), State(3, true))
  {
    BareTokens(toks);
    var st := State(3, true);
    ParamGuardStops(toks, st, k);
    var list := SepBy(Op(Some(",")), GuardedParam());
    assert Eval(list, toks, st, k) == Res(Failure(false), st);
    Absent(list, toks, st, k);
    Mapped(Maybe(list), OrEmpty, toks, st, Null, st, k);
    Keying(Map(Maybe(list), OrEmpty), "params", toks, st, Arr([]), st, k);
  }

  /** `( )`, guarded */
  lemma BareArgs(toks: seq<Token>, k: bool)
    requires toks == Bare()
    ensures Eval(MethodArgs(true), toks, State(2, true), k) == Res(Success(Obj(map["params" := Arr([])], true)), State(4, true))
  {
    BareTokens(toks);
    var st := State(2, true);
    var params := Obj(map["params" := Arr([])], true);
    DropsToken(OP, "(", toks, st, k);
    BareParams(toks, k);
    Then(Drop(Op(Some("("))), ParamsWith(true), toks, st, Dropped, State(3, true), params, State(3, true), k);
    var a1 := And(Drop(Op(Some("("))), ParamsWith(true));
    Misses(OP, Some(","), toks, State(3, true), k);
    Absent(Op(Some(",")), toks, State(3, true), k);
    Then(a1, Drop(Maybe(Op(Some(",")))), toks, st, params, State(3, true), Dropped, State(3, true), k);
    var a2 := And(a1, Drop(Maybe(Op(Some(",")))));
    DropsToken(OP, ")", toks, State(3, true), k);
    Then(a2, Drop(Op(Some(")"))), toks, st, params, State(3, true), Dropped, State(4, true), k);
  }

  /** `def g` */
  lemma BareMethodHead(toks: seq<Token>, k: bool)
    requires toks == Bare()
    ensures Eval(MethodHead(), toks, State(0, false), k) == Res(Success(Obj(map["name" := Str("g")], true)), State(2, true))
  {
    BareTokens(toks);
    var st := State(0, false);
    var keyword := Commit(Drop(Name(Some("def"))));
    DropsToken(NAME, "def", toks, st, k);
    assert Eval(keyword, toks, st, k) == Res(Success(Dropped), State(1, true));
    KeysToken(NAME, "name", "g", toks, State(1, true), k);
    Then(keyword, As(Name(None), "name"), toks, st, Dropped, State(1, true), Obj(map["name" := Str("g")], true), State(2, true), k);
  }

  /** No `->` after `( )`. */
  lemma BareNoReturns(toks: seq<Token>, k: bool)
    requires toks == Bare()
    ensures Eval(MethodReturns(), toks, State(4, true), k) == Res(Success(Null), State(4, true))
  {
    BareTokens(toks);
    var at := State(4, true);
    Misses(OP, Some("->"), toks, at, k);
    var arrow := And(Drop(Op(Some("->"))), As(TypeScan({":"}), "returns"));
    assert Eval(arrow, toks, at, k) == Res(Failure(false), at);
    Absent(arrow, toks, at, k);
  }

  /** `def g ( )`, guarded, no return type. */
  lemma BareSignature(toks: seq<Token>, k: bool)
    requires toks == Bare()
    ensures Eval(And(And(MethodHead(), MethodArgs(true)), MethodReturns()), toks, State(0, false), k)
         == Res(Success(Signature(Bared(), k)), State(4, true))
  {
    var st, at := State(0, false), State(4, true);
    var name := Obj(map["name" := Str("g")], true);
    BareMethodHead(toks, k);
    BareArgs(toks, k);
    Then(MethodHead(), MethodArgs(true), toks, st, name, State(2, true), Obj(map["params" := Arr([])], true), at, k);
    Unite(map["name" := Str("g")], "params", Arr([]), k);
    BareNoReturns(toks, k);
    Then(And(MethodHead(), MethodArgs(true)), MethodReturns(), toks, st, Obj(Bared(), k), at, Null, at, k);
    Absorbs(Bared(), Null, k);
  }

  /** `def g ( ) : "d"`, guarded. */
  lemma BareDocumented(toks: seq<Token>, k: bool)
    requires toks == Bare()
    ensures Eval(And(And(And(And(MethodHead(), MethodArgs(true)), MethodReturns()), Drop(Op(Some(":")))), As(StringP(None), "docstring")), toks, State(0, false), k)
         == Res(Success(Documented(Bared(), k)), State(6, true))
  {
    BareTokens(toks);
    var st := State(0, false);
    var m3 := And(And(MethodHead(), MethodArgs(true)), MethodReturns());
    BareSignature(toks, k);
    DropsToken(OP, ":", toks, State(4, true), k);
    Then(m3, Drop(Op(Some(":"))), toks, st, Signature(Bared(), k), State(4, true), Dropped, State(5, true), k);
    KeysToken(STRING, "docstring", "d", toks, State(5, true), k);
    var doc := Obj(map["docstring" := Str("d")], true);
    Then(And(m3, Drop(Op(Some(":")))), As(StringP(None), "docstring"), toks, st, Signature(Bared(), k), State(5, true), doc, State(6, true), k);
    if k {
      Unite(Bared(), "docstring", Str("d"), k);
    } else {
      Appends([Obj(Bared(), false), Null], doc, k);
      assert [Obj(Bared(), false), Null] + [doc] == [Obj(Bared(), false), Null, doc];
    }
  }

  /**
   * With the parameters guarded, `def g(): "d" ...` is the method `g` with no
   * parameters, under either merge, and the end marker is left to read.
   */
  lemma BareMethodReads(toks: seq<Token>, k: bool)
    requires toks == Bare()
    ensures Eval(MethodParserWith(true), toks, State(0, false), k) == Res(Success(MethodValue(Bared(), k)), State(7, true))
  {
    BareTokens(toks);
    var st := State(0, false);
    var m5 := And(And(And(And(MethodHead(), MethodArgs(true)), MethodReturns()), Drop(Op(Some(":")))), As(StringP(None), "docstring"));
    BareDocumented(toks, k);
    DropsToken(OP, "...", toks, State(6, true), k);
    Then(m5, Drop(Op(Some("..."))), toks, st, Documented(Bared(), k), State(6, true), Dropped, State(7, true), k);
    Mapped(And(m5, Drop(Op(Some("...")))), WithDefaultReturns, toks, st, Documented(Bared(), k), State(7, true), k);
    ReturnsDefaulted(Bared(), k);
    Prefixes(true);
  }
}
