/**
 * What the `parseAST` driver promises: comments are skipped without effect on the
 * eager flag, each loop stops where a round failed and gives that round back, the
 * result needs an enum and reaches the end marker, nothing spins forever, and, as
 * written, no method is ever read.
 */
module AstLaws {
  import opened Wrappers
  import opened Tokenizer
  import opened Merging
  import opened Base
  import opened BaseLaws
  import opened TokenParsers
  import opened Ast

  // ---- comments ----

  /** The offset of the first token from `i` on that is not a comment. */
  function CommentsEnd(toks: seq<Token>, i: nat): (e: nat)
    ensures e >= i
    ensures i < |toks| ==> e <= |toks|
    ensures forall k :: i <= k < e ==> k < |toks| && toks[k].kind == COMMENT
    ensures e >= |toks| || toks[e].kind != COMMENT
    decreases if i < |toks| then |toks| - i else 0
  {
    if i < |toks| && toks[i].kind == COMMENT then CommentsEnd(toks, i + 1) else i
  }

  lemma {:induction false} CommentLoop(toks: seq<Token>, st: State, acc: seq<Value>, keepTag: bool)
    ensures var r := ManyLoop(Comment(), toks, st, acc, keepTag);
      r.out.Success? && r.st == st.(offset := CommentsEnd(toks, st.offset))
    decreases if st.offset < |toks| then |toks| - st.offset else 0
  {
    var r := Eval(Comment(), toks, st, keepTag);
    TokenContract(COMMENT, None, toks, st, keepTag);
    if r.out.Success? {
      CommentLoop(toks, r.st, acc + [r.out.value], keepTag);
    }
  }

  /** Skipping comments never fails, takes every comment in a row, and leaves the eager flag alone. */
  lemma CommentsSkip(toks: seq<Token>, st: State, keepTag: bool)
    ensures Eval(Comments(), toks, st, keepTag) == Res(Success(Dropped), st.(offset := CommentsEnd(toks, st.offset)))
  {
    CommentLoop(toks, st, [], keepTag);
  }

  // ---- the eager flag ----

  /** The parser's first step, through `map` and the left operands of `and`, is a commit. */
  predicate StartsWithCommit(p: Parser)
  {
    match p
    case Commit(_) => true
    case Map(q, _) => StartsWithCommit(q)
    case And(a, _) => StartsWithCommit(a)
    case _ => false
  }

  /** A parser that starts with a commit leaves the stream eager whenever it succeeds. */
  lemma {:induction false} CommittedSuccessIsEager(p: Parser, toks: seq<Token>, st: State, keepTag: bool)
    requires StartsWithCommit(p)
    ensures Eval(p, toks, st, keepTag).out.Success? ==> Eval(p, toks, st, keepTag).st.eager
  {
    match p
    case Commit(_) =>
    case Map(q, _) => CommittedSuccessIsEager(q, toks, st, keepTag);
    case And(a, b) =>
      var r1 := Eval(a, toks, st, keepTag);
      CommittedSuccessIsEager(a, toks, st, keepTag);
  }

  /**
   * On an eager stream a sequence can only fail plainly when its first part failed
   * without matching: every other failure is a syntax error.
   */
  lemma EagerAndFailure(a: Parser, b: Parser, toks: seq<Token>, st: State, keepTag: bool)
    requires st.eager && Eval(And(a, b), toks, st, keepTag).out.Failure?
    ensures Eval(a, toks, st, keepTag).out == Failure(false)
  {
  }

  /** On an eager stream an assignment fails plainly only where there is no name. */
  lemma EagerAssignmentFailure(toks: seq<Token>, st: State, keepTag: bool)
    requires st.eager && Eval(Assignment(), toks, st, keepTag).out.Failure?
    ensures !(st.offset < |toks| && toks[st.offset].kind == NAME)
  {
    var p1 := And(Drop(Name(None)), Drop(Op(Some("="))));
    var p2 := And(p1, Drop(Name(None)));
    var p3 := And(p2, Drop(Maybe(Op(Some("(")))));
    var p4 := And(p3, Drop(Maybe(Op(Some(")")))));
    EagerAndFailure(p4, Drop(Maybe(StringP(None))), toks, st, keepTag);
    EagerAndFailure(p3, Drop(Maybe(Op(Some(")")))), toks, st, keepTag);
    EagerAndFailure(p2, Drop(Maybe(Op(Some("(")))), toks, st, keepTag);
    EagerAndFailure(p1, Drop(Name(None)), toks, st, keepTag);
    EagerAndFailure(Drop(Name(None)), Drop(Op(Some("="))), toks, st, keepTag);
    TokenContract(NAME, None, toks, st, keepTag);
  }

  /** The parser that runs first: through `map`, `commit` and the left operands of `and`. */
  function Head(p: Parser): Parser
  {
    match p
    case Map(q, _) => Head(q)
    case Commit(q) => Head(q)
    case And(a, _) => Head(a)
    case _ => p
  }

  /** A parser succeeds only if the parser it runs first succeeds from the same state. */
  lemma {:induction false} HeadSucceeds(p: Parser, toks: seq<Token>, st: State, keepTag: bool)
    ensures Eval(p, toks, st, keepTag).out.Success? ==> Eval(Head(p), toks, st, keepTag).out.Success?
  {
    match p
    case Map(q, _) => HeadSucceeds(q, toks, st, keepTag);
    case Commit(q) => HeadSucceeds(q, toks, st, keepTag);
    case And(a, _) => HeadSucceeds(a, toks, st, keepTag);
    case _ =>
  }

  /** The first token a method asks for is the name `def`, guarded or not. */
  lemma MethodHeadIsDef(guard: bool)
    ensures Head(MethodParserWith(guard)) == Match(NAME, Some("def"))
  {
    var m := MethodParserWith(guard);
    assert Head(m) == Head(m.p) == Head(m.p.p) == Head(m.p.p.p) == Head(m.p.p.p.p);
    var n := m.p.p.p.p;
    assert Head(n) == Head(n.p) == Head(n.p.p) == Head(n.p.p.p);
    assert n.p.p.p == Commit(Drop(Name(Some("def"))));
  }

  /** A method starts with the name `def`. */
  lemma MethodStartsWithDef(toks: seq<Token>, st: State, guard: bool, keepTag: bool)
    requires Eval(MethodParserWith(guard), toks, st, keepTag).out.Success?
    ensures st.offset < |toks| && toks[st.offset].kind == NAME && toks[st.offset].text == "def"
  {
    HeadSucceeds(MethodParserWith(guard), toks, st, keepTag);
    MethodHeadIsDef(guard);
    TokenContract(NAME, Some("def"), toks, st, keepTag);
  }

  // ---- the guard on enum items ----

  /** A token where an enum item can start: a name other than `class` and `def`. */
  predicate ItemCanStart(toks: seq<Token>, st: State)
  {
    st.offset < |toks| && toks[st.offset].kind == NAME
    && toks[st.offset].text != "class" && toks[st.offset].text != "def"
  }

  /**
   * Where no item can start, the guarded item fails without matching and leaves the
   * state alone, eager or not: the `many` of items ends there and the next
   * declaration is read from that token.
   */
  lemma GuardStops(toks: seq<Token>, st: State, keepTag: bool)
    requires !ItemCanStart(toks, st)
    ensures Eval(GuardedEnumItem(), toks, st, keepTag) == Res(Failure(false), st)
  {
    var cls, def := Name(Some("class")), Name(Some("def"));
    TokenContract(NAME, Some("class"), toks, st, keepTag);
    TokenContract(NAME, Some("def"), toks, st, keepTag);
    TokenContract(NAME, None, toks, st, keepTag);
    if st.offset < |toks| && toks[st.offset].kind == NAME && toks[st.offset].text == "class" {
      assert Eval(cls, toks, st, keepTag) == Res(Success(Str("class")), Took(st));
      assert Eval(Or(cls, def), toks, st, keepTag) == Res(Success(Str("class")), Took(st));
      assert Eval(NotItemStart(), toks, st, keepTag) == Res(Success(Str("class")), Took(st));
    } else if st.offset < |toks| && toks[st.offset].kind == NAME && toks[st.offset].text == "def" {
      assert Eval(cls, toks, st, keepTag) == Res(Failure(false), st);
      assert Eval(def, toks, st, keepTag) == Res(Success(Str("def")), Took(st));
      assert Eval(Or(cls, def), toks, st, keepTag) == Res(Success(Str("def")), Took(st));
      assert Eval(NotItemStart(), toks, st, keepTag) == Res(Success(Str("def")), Took(st));
    } else {
      assert Eval(cls, toks, st, keepTag) == Res(Failure(false), st);
      assert Eval(def, toks, st, keepTag) == Res(Failure(false), st);
      assert Eval(Or(cls, def), toks, st, keepTag) == Res(Failure(false), st);
      assert Eval(Name(None), toks, st, keepTag) == Res(Failure(false), st);
      assert Eval(NotAhead(Name(None)), toks, st, keepTag) == Res(Success(Null), st);
      assert Eval(NotItemStart(), toks, st, keepTag) == Res(Success(Null), st);
    }
    assert Eval(NotAhead(NotItemStart()), toks, st, keepTag) == Res(Failure(false), st);
    assert Eval(Drop(NotAhead(NotItemStart())), toks, st, keepTag) == Res(Failure(false), st);
  }

  /** Where an item can start, the guard is invisible: the guarded item is the item. */
  lemma GuardPasses(toks: seq<Token>, st: State, keepTag: bool)
    requires ItemCanStart(toks, st)
    ensures Eval(GuardedEnumItem(), toks, st, keepTag) == Eval(EnumItem(), toks, st, keepTag)
  {
    var cls, def := Name(Some("class")), Name(Some("def"));
    TokenContract(NAME, Some("class"), toks, st, keepTag);
    TokenContract(NAME, Some("def"), toks, st, keepTag);
    TokenContract(NAME, None, toks, st, keepTag);
    assert Eval(cls, toks, st, keepTag) == Res(Failure(false), st);
    assert Eval(def, toks, st, keepTag) == Res(Failure(false), st);
    assert Eval(Or(cls, def), toks, st, keepTag) == Res(Failure(false), st);
    assert Eval(Name(None), toks, st, keepTag) == Res(Success(Str(toks[st.offset].text)), Took(st));
    assert Eval(NotAhead(Name(None)), toks, st, keepTag) == Res(Failure(false), st);
    assert Eval(NotItemStart(), toks, st, keepTag) == Res(Failure(false), st);
    assert Eval(NotAhead(NotItemStart()), toks, st, keepTag) == Res(Success(Null), st);
    var guard := Drop(NotAhead(NotItemStart()));
    assert Eval(guard, toks, st, keepTag) == Res(Success(Dropped), st);
    ItemFailureIsMatched(toks, st, keepTag);
  }

  /** On a name an item fails only after matching it, non-eager, with the offset given back. */
  lemma ItemFailureIsMatched(toks: seq<Token>, st: State, keepTag: bool)
    requires st.offset < |toks| && toks[st.offset].kind == NAME
    ensures var r := Eval(EnumItem(), toks, st, keepTag);
      r.out.Failure? ==> r.out.matched && !r.st.eager && r.st.offset == st.offset
  {
    TokenContract(NAME, None, toks, st, keepTag);
    assert Eval(Name(None), toks, st, keepTag).out.Success?;
    assert Eval(As(Name(None), "name"), toks, st, keepTag).out.Success?;
    var a1 := And(As(Name(None), "name"), Drop(Op(Some(":"))));
    var a2 := And(a1, As(Name(None), "type"));
    assert Eval(a1, toks, st, keepTag).out.Failure? ==> Eval(a1, toks, st, keepTag).out.matched;
    assert Eval(a2, toks, st, keepTag).out.Failure? ==> Eval(a2, toks, st, keepTag).out.matched;
  }

  // ---- the guard on parameters ----

  /** A token where a parameter can start: `**`, `*` or a name. */
  predicate ParamCanStart(toks: seq<Token>, st: State)
  {
    st.offset < |toks|
    && (toks[st.offset].kind == NAME || toks[st.offset] == Token(OP, "**") || toks[st.offset] == Token(OP, "*"))
  }

  /**
   * Where no parameter can start (the `)` of an empty list, say), the guarded
   * parameter fails without matching and leaves the state alone, eager or not.
   */
  lemma ParamGuardStops(toks: seq<Token>, st: State, keepTag: bool)
    requires !ParamCanStart(toks, st)
    ensures Eval(GuardedParam(), toks, st, keepTag) == Res(Failure(false), st)
  {
    TokenContract(OP, Some("**"), toks, st, keepTag);
    TokenContract(OP, Some("*"), toks, st, keepTag);
    TokenContract(NAME, None, toks, st, keepTag);
    var stars := Or(Op(Some("**")), Op(Some("*")));
    assert Eval(stars, toks, st, keepTag) == Res(Failure(false), st);
    assert Eval(ParamStart(), toks, st, keepTag) == Res(Failure(false), st);
    assert Eval(Drop(Ahead(ParamStart())), toks, st, keepTag) == Res(Failure(false), st);
  }

  /** At a name, a parameter never fails without throwing: its star and name always read. */
  lemma ParamAtName(toks: seq<Token>, st: State, keepTag: bool)
    requires st.offset < |toks| && toks[st.offset].kind == NAME
    ensures !Eval(Param(), toks, st, keepTag).out.Failure?
  {
    TokenContract(OP, Some("**"), toks, st, keepTag);
    TokenContract(OP, Some("*"), toks, st, keepTag);
    TokenContract(NAME, None, toks, st, keepTag);
    var stars := Or(Op(Some("**")), Op(Some("*")));
    assert Eval(Op(Some("**")), toks, st, keepTag) == Res(Failure(false), st);
    assert Eval(Op(Some("*")), toks, st, keepTag) == Res(Failure(false), st);
    assert Eval(stars, toks, st, keepTag) == Res(Failure(false), st);
    assert Eval(Maybe(stars), toks, st, keepTag) == Res(Success(Null), st);
    var star := Drop(Maybe(stars));
    assert Eval(star, toks, st, keepTag) == Res(Success(Dropped), st);
    assert Eval(As(Name(None), "name"), toks, st, keepTag).out.Success?;
    var named := And(star, As(Name(None), "name"));
    var r := Eval(named, toks, st, keepTag);
    assert r.out.Success?;
    var typed := Maybe(And(Drop(Op(Some(":"))), As(TypeScan({",", ")", "="}), "type")));
    assert !Eval(typed, toks, r.st, keepTag).out.Failure?;
    var r2 := Eval(And(named, typed), toks, st, keepTag);
    assert !r2.out.Failure?;
    var dflt := Maybe(And(Drop(Op(Some("="))), As(Constant(), "default")));
    if r2.out.Success? {
      assert !Eval(dflt, toks, r2.st, keepTag).out.Failure?;
    }
    assert !Eval(And(And(named, typed), dflt), toks, st, keepTag).out.Failure?;
  }

  /** At a name the guard is invisible: the guarded parameter is the parameter. */
  lemma ParamGuardPasses(toks: seq<Token>, st: State, keepTag: bool)
    requires st.offset < |toks| && toks[st.offset].kind == NAME
    ensures Eval(GuardedParam(), toks, st, keepTag) == Eval(Param(), toks, st, keepTag)
  {
    TokenContract(OP, Some("**"), toks, st, keepTag);
    TokenContract(OP, Some("*"), toks, st, keepTag);
    TokenContract(NAME, None, toks, st, keepTag);
    var stars := Or(Op(Some("**")), Op(Some("*")));
    assert Eval(Op(Some("**")), toks, st, keepTag) == Res(Failure(false), st);
    assert Eval(Op(Some("*")), toks, st, keepTag) == Res(Failure(false), st);
    assert Eval(stars, toks, st, keepTag) == Res(Failure(false), st);
    assert Eval(Name(None), toks, st, keepTag) == Res(Success(Str(toks[st.offset].text)), Took(st));
    assert Eval(ParamStart(), toks, st, keepTag) == Res(Success(Str(toks[st.offset].text)), Took(st));
    assert Eval(Ahead(ParamStart()), toks, st, keepTag) == Res(Success(Str(toks[st.offset].text)), st);
    assert Eval(Drop(Ahead(ParamStart())), toks, st, keepTag) == Res(Success(Dropped), st);
    ParamAtName(toks, st, keepTag);
  }

  // ---- the loops ----

  /** The loop gives back the round that failed: it ends where that round started. */
  lemma {:induction false} LoopEndsWhereRoundFailed(item: Parser, toks: seq<Token>, st: State, acc: seq<Value>, fx: Fixes)
    requires Consumes(item) && fx.reset
    ensures var l := Loop(item, toks, st, acc, fx);
      l.Ok? ==>
        && l.value.st.offset >= st.offset
        && var c := Eval(Comments(), toks, Begin(l.value.st, true), fx.keepTag);
        && c.out.Success?
        && Eval(item, toks, Begin(c.st, true), fx.keepTag).out.Failure?
    decreases Rem(toks, st)
  {
    var c := Eval(Comments(), toks, Begin(st, true), fx.keepTag);
    CommentsSkip(toks, Begin(st, true), fx.keepTag);
    var r := Eval(item, toks, Begin(c.st, true), fx.keepTag);
    if r.out.Success? {
      ConsumesAdvances(item, toks, Begin(c.st, true), fx.keepTag);
      LoopEndsWhereRoundFailed(item, toks, r.st, acc + [r.out.value], fx);
    } else if r.out.Failure? {
      var l := Loop(item, toks, st, acc, fx);
      assert Begin(l.value.st, true) == Begin(st, true);
    }
  }

  /** Without the reset, as written, a loop entered on an eager stream stays eager. */
  lemma {:induction false} LoopKeepsEager(item: Parser, toks: seq<Token>, st: State, acc: seq<Value>, fx: Fixes)
    requires Consumes(item) && !fx.reset
    ensures var l := Loop(item, toks, st, acc, fx);
      l.Ok? ==> (st.eager ==> l.value.st.eager)
                && (StartsWithCommit(item) && |l.value.values| > |acc| ==> l.value.st.eager)
    decreases Rem(toks, st)
  {
    var c := Eval(Comments(), toks, st, fx.keepTag);
    CommentsSkip(toks, st, fx.keepTag);
    var r := Eval(item, toks, c.st, fx.keepTag);
    if r.out.Success? {
      ConsumesAdvances(item, toks, c.st, fx.keepTag);
      if StartsWithCommit(item) {
        CommittedSuccessIsEager(item, toks, c.st, fx.keepTag);
      }
      LoopKeepsEager(item, toks, r.st, acc + [r.out.value], fx);
    }
  }

  /**
   * As written, a loop entered on an eager stream ends in a state from which the
   * comments and then the item fail plainly.
   */
  lemma {:induction false} EagerLoopEnd(item: Parser, toks: seq<Token>, st: State, acc: seq<Value>, fx: Fixes)
    requires Consumes(item) && st.eager && !fx.reset
    ensures var l := Loop(item, toks, st, acc, fx);
      l.Ok? ==>
        && l.value.st.eager
        && var c := Eval(Comments(), toks, l.value.st, fx.keepTag);
        && c.out.Success?
        && Eval(item, toks, c.st, fx.keepTag).out.Failure?
    decreases Rem(toks, st)
  {
    var c := Eval(Comments(), toks, st, fx.keepTag);
    CommentsSkip(toks, st, fx.keepTag);
    var r := Eval(item, toks, c.st, fx.keepTag);
    if r.out.Success? {
      ConsumesAdvances(item, toks, c.st, fx.keepTag);
      EagerLoopEnd(item, toks, r.st, acc + [r.out.value], fx);
    } else if r.out.Failure? {
      assert Loop(item, toks, st, acc, fx).value.st == st;
    }
  }

  /**
   * Without the reset (as written, whatever the other corrections) `parseAST` never
   * returns a method: the enum's commit leaves the stream eager, so probing a `def`
   * as an assignment (a name, then no `=`) is a syntax error rather than the end of
   * the assignments.
   */
  lemma AsWrittenNeverParsesMethods(toks: seq<Token>, fx: Fixes)
    requires !fx.reset
    ensures DriverWith(toks, fx).Ok? ==> DriverWith(toks, fx).value.decls.methods == []
  {
    var c := OrThrow(Comments(), toks, State(0, false), fx.keepTag);
    if c.Ok? {
      var i := OrThrow(Drop(Many(ImportParser())), toks, c.value.st, fx.keepTag);
      if i.Ok? {
        var enums := Loop(EnumParserWith(fx.guardItems), toks, i.value.st, [], fx);
        if enums.Ok? && |enums.value.values| > 0 {
          EnumsLeaveEager(toks, i.value.st, fx);
          EagerMethodsAfterAssignments(toks, enums.value, fx);
        }
      }
    }
  }

  /** Without the reset, reading at least one enum leaves the stream eager. */
  lemma EnumsLeaveEager(toks: seq<Token>, st: State, fx: Fixes)
    requires !fx.reset
    ensures var l := Loop(EnumParserWith(fx.guardItems), toks, st, [], fx);
      l.Ok? && |l.value.values| > 0 ==> l.value.st.eager
  {
    assert StartsWithCommit(EnumParserWith(fx.guardItems));
    LoopKeepsEager(EnumParserWith(fx.guardItems), toks, st, [], fx);
  }

  /** Without the reset, after the assignments on an eager stream no method follows. */
  lemma EagerMethodsAfterAssignments(toks: seq<Token>, enums: Collected, fx: Fixes)
    requires enums.st.eager && !fx.reset
    ensures AfterEnums(toks, enums, fx).Ok? ==> AfterEnums(toks, enums, fx).value.decls.methods == []
  {
    var l := Loop(Assignment(), toks, enums.st, [], fx);
    if l.Ok? {
      var assigns := l.value;
      EagerLoopEnd(Assignment(), toks, enums.st, [], fx);
      var skip := Eval(Comments(), toks, assigns.st, fx.keepTag);
      CommentsSkip(toks, assigns.st, fx.keepTag);
      EagerAssignmentFailure(toks, skip.st, fx.keepTag);
      if Eval(MethodParserWith(fx.guardParams), toks, skip.st, fx.keepTag).out.Success? {
        MethodStartsWithDef(toks, skip.st, fx.guardParams, fx.keepTag);
      }
      NoMethodHere(toks, assigns.st, fx);
    }
  }

  /** When the first round fails, the method loop collects nothing. */
  lemma NoMethodHere(toks: seq<Token>, st: State, fx: Fixes)
    requires !fx.reset
    requires !Eval(MethodParserWith(fx.guardParams), toks, Eval(Comments(), toks, st, fx.keepTag).st, fx.keepTag).out.Success?
    ensures AfterAssignments(toks, [], st, fx).Ok? ==> AfterAssignments(toks, [], st, fx).value.decls.methods == []
  {
  }

  // ---- the driver ----

  /** On the output of the tokenizer, the end marker is the last token. */
  lemma EofIsLast(toks: seq<Token>, st: State, keepTag: bool)
    requires EndsWithOneMarker(toks)
    ensures Eval(Drop(Eof()), toks, st, keepTag).out.Success? ==> Eval(Drop(Eof()), toks, st, keepTag).st.offset == |toks|
  {
    TokenContract(ENDMARKER, None, toks, st, keepTag);
  }

  lemma AfterAssignmentsReadsToEnd(toks: seq<Token>, enums: seq<Value>, st: State, fx: Fixes)
    requires EndsWithOneMarker(toks)
    ensures AfterAssignments(toks, enums, st, fx).Ok? ==> AfterAssignments(toks, enums, st, fx).value.end.offset == |toks|
  {
    var methods := Loop(MethodParserWith(fx.guardParams), toks, st, [], fx);
    if methods.Ok? {
      EofIsLast(toks, Begin(methods.value.st, fx.reset), fx.keepTag);
    }
  }

  lemma AfterEnumsReadsToEnd(toks: seq<Token>, enums: Collected, fx: Fixes)
    requires EndsWithOneMarker(toks)
    ensures AfterEnums(toks, enums, fx).Ok? ==> AfterEnums(toks, enums, fx).value.end.offset == |toks|
  {
    var assigns := Loop(Assignment(), toks, enums.st, [], fx);
    if assigns.Ok? {
      AfterAssignmentsReadsToEnd(toks, enums.values, assigns.value.st, fx);
    }
  }

  /** On the output of the tokenizer, a result means every token was read, the end marker last. */
  lemma DriverReadsToEnd(toks: seq<Token>, fx: Fixes)
    requires EndsWithOneMarker(toks)
    ensures DriverWith(toks, fx).Ok? ==> DriverWith(toks, fx).value.end.offset == |toks|
  {
    var c := OrThrow(Comments(), toks, Begin(State(0, false), fx.reset), fx.keepTag);
    if c.Ok? {
      var i := OrThrow(Drop(Many(ImportParser())), toks, Begin(c.value.st, fx.reset), fx.keepTag);
      if i.Ok? {
        var enums := Loop(EnumParserWith(fx.guardItems), toks, i.value.st, [], fx);
        if enums.Ok? {
          AfterEnumsReadsToEnd(toks, enums.value, fx);
        }
      }
    }
  }

  // ---- termination ----

  /** `drop` and `as` change the value only. */
  lemma MapShape(p: Parser, key: string)
    ensures WellFormed(Drop(p)) == WellFormed(p) && Consumes(Drop(p)) == Consumes(p)
    ensures WellFormed(As(p, key)) == WellFormed(p) && Consumes(As(p, key)) == Consumes(p)
  {
  }

  /** How `and`, `or`, `maybe` and `commit` combine the two shape facts. */
  lemma AndShape(a: Parser, b: Parser)
    ensures WellFormed(And(a, b)) == (WellFormed(a) && WellFormed(b))
    ensures Consumes(And(a, b)) == (Consumes(a) || Consumes(b))
  {
  }

  lemma OrShape(a: Parser, b: Parser)
    ensures WellFormed(Or(a, b)) == (WellFormed(a) && WellFormed(b))
    ensures Consumes(Or(a, b)) == (Consumes(a) && Consumes(b))
  {
  }

  lemma MaybeShape(a: Parser)
    ensures WellFormed(Maybe(a)) == WellFormed(a) && !Consumes(Maybe(a))
  {
  }

  lemma CommitShape(a: Parser)
    ensures WellFormed(Commit(a)) == WellFormed(a) && Consumes(Commit(a)) == Consumes(a)
  {
  }

  /** The one-token parsers take a token and hold no `many`. */
  lemma TokenShapes(value: Option<string>)
    ensures WellFormed(Name(value)) && Consumes(Name(value))
    ensures WellFormed(Op(value)) && Consumes(Op(value))
    ensures WellFormed(StringP(value)) && Consumes(StringP(value))
  {
  }

  lemma ConstantWellFormed()
    ensures WellFormed(Constant())
  {
    ConstantShape();
    TokenShapes(None);
    OrShape(NoneP(), TrueP());
    OrShape(Or(NoneP(), TrueP()), FalseP());
    OrShape(Or(Or(NoneP(), TrueP()), FalseP()), Number(None));
    OrShape(Or(Or(Or(NoneP(), TrueP()), FalseP()), Number(None)), StringP(None));
  }

  /** `[: TYPE]` and `[= CONSTANT]` */
  lemma ParamTailWellFormed()
    ensures WellFormed(Maybe(And(Drop(Op(Some(":"))), As(TypeScan({",", ")", "="}), "type"))))
    ensures WellFormed(Maybe(And(Drop(Op(Some("="))), As(Constant(), "default"))))
  {
    TokenShapes(Some(":"));
    TokenShapes(Some("="));
    ConstantWellFormed();
    var ty := As(TypeScan({",", ")", "="}), "type");
    MapShape(TypeScan({",", ")", "="}), "type");
    MapShape(Op(Some(":")), "");
    AndShape(Drop(Op(Some(":"))), ty);
    MaybeShape(And(Drop(Op(Some(":"))), ty));
    MapShape(Constant(), "default");
    MapShape(Op(Some("=")), "");
    AndShape(Drop(Op(Some("="))), As(Constant(), "default"));
    MaybeShape(And(Drop(Op(Some("="))), As(Constant(), "default")));
  }

  lemma ParamWellFormed()
    ensures WellFormed(Param()) && Consumes(Param())
  {
    ParamTailWellFormed();
    TokenShapes(None);
    TokenShapes(Some("**"));
    TokenShapes(Some("*"));
    var starOp := Or(Op(Some("**")), Op(Some("*")));
    OrShape(Op(Some("**")), Op(Some("*")));
    MaybeShape(starOp);
    MapShape(Maybe(starOp), "");
    var star := Drop(Maybe(starOp));
    MapShape(Name(None), "name");
    var named := And(star, As(Name(None), "name"));
    AndShape(star, As(Name(None), "name"));
    var typed := Maybe(And(Drop(Op(Some(":"))), As(TypeScan({",", ")", "="}), "type")));
    var dflt := Maybe(And(Drop(Op(Some("="))), As(Constant(), "default")));
    AndShape(named, typed);
    AndShape(And(named, typed), dflt);
    var body := And(And(named, typed), dflt);
    assert Param() == Map(body, WithDefaultType);
  }

  /** The guard holds no `many`, and with it a parameter still always takes a token. */
  lemma GuardedParamWellFormed()
    ensures WellFormed(GuardedParam()) && Consumes(GuardedParam())
  {
    ParamWellFormed();
    TokenShapes(None);
    TokenShapes(Some("**"));
    TokenShapes(Some("*"));
    OrShape(Op(Some("**")), Op(Some("*")));
    OrShape(Or(Op(Some("**")), Op(Some("*"))), Name(None));
    MapShape(Ahead(ParamStart()), "");
    AndShape(Drop(Ahead(ParamStart())), Param());
  }

  lemma ParamsWellFormed(guard: bool)
    ensures WellFormed(ParamsWith(guard))
  {
    var param := ParamParser(guard);
    ParamWellFormed();
    GuardedParamWellFormed();
    assert WellFormed(param) && Consumes(param);
    TokenShapes(Some(","));
    MapShape(Op(Some(",")), "");
    var rest := And(Drop(Op(Some(","))), param);
    AndShape(Drop(Op(Some(","))), param);
    var list := And(param, Many(rest));
    AndShape(param, Many(rest));
    assert SepBy(Op(Some(",")), param) == list;
    MaybeShape(list);
    MapShape(Map(Maybe(list), OrEmpty), "params");
  }

  /** `( params [,] )` */
  lemma MethodArgsWellFormed(guard: bool)
    ensures var args := And(And(And(Drop(Op(Some("("))), ParamsWith(guard)), Drop(Maybe(Op(Some(","))))), Drop(Op(Some(")"))));
      WellFormed(args) && Consumes(args)
  {
    ParamsWellFormed(guard);
    TokenShapes(Some("("));
    TokenShapes(Some(")"));
    TokenShapes(Some(","));
    MapShape(Op(Some("(")), "");
    MapShape(Op(Some(")")), "");
    MaybeShape(Op(Some(",")));
    MapShape(Maybe(Op(Some(","))), "");
    var open := And(Drop(Op(Some("("))), ParamsWith(guard));
    AndShape(Drop(Op(Some("("))), ParamsWith(guard));
    var comma := And(open, Drop(Maybe(Op(Some(",")))));
    AndShape(open, Drop(Maybe(Op(Some(",")))));
    AndShape(comma, Drop(Op(Some(")"))));
  }

  /** `def NAME` and `[-> TYPE]` */
  lemma MethodHeadWellFormed()
    ensures var head := And(Commit(Drop(Name(Some("def")))), As(Name(None), "name"));
      WellFormed(head) && Consumes(head)
    ensures WellFormed(Maybe(And(Drop(Op(Some("->"))), As(TypeScan({":"}), "returns"))))
  {
    TokenShapes(None);
    TokenShapes(Some("def"));
    TokenShapes(Some("->"));
    MapShape(Name(Some("def")), "");
    MapShape(Name(None), "name");
    MapShape(Op(Some("->")), "");
    MapShape(TypeScan({":"}), "returns");
    CommitShape(Drop(Name(Some("def"))));
    AndShape(Commit(Drop(Name(Some("def")))), As(Name(None), "name"));
    var arrow := And(Drop(Op(Some("->"))), As(TypeScan({":"}), "returns"));
    AndShape(Drop(Op(Some("->"))), As(TypeScan({":"}), "returns"));
    MaybeShape(arrow);
  }

  lemma MethodWellFormed(guard: bool)
    ensures WellFormed(MethodParserWith(guard)) && Consumes(MethodParserWith(guard))
  {
    MethodArgsWellFormed(guard);
    MethodHeadWellFormed();
    TokenShapes(None);
    TokenShapes(Some(":"));
    TokenShapes(Some("..."));
    MapShape(Op(Some(":")), "");
    MapShape(Op(Some("...")), "");
    MapShape(StringP(None), "docstring");
    var head := And(Commit(Drop(Name(Some("def")))), As(Name(None), "name"));
    var args := And(And(And(Drop(Op(Some("("))), ParamsWith(guard)), Drop(Maybe(Op(Some(","))))), Drop(Op(Some(")"))));
    var ret := Maybe(And(Drop(Op(Some("->"))), As(TypeScan({":"}), "returns")));
    var b1 := And(head, args);
    AndShape(head, args);
    var b2 := And(b1, ret);
    AndShape(b1, ret);
    var b3 := And(b2, Drop(Op(Some(":"))));
    AndShape(b2, Drop(Op(Some(":"))));
    var b4 := And(b3, As(StringP(None), "docstring"));
    AndShape(b3, As(StringP(None), "docstring"));
    var body := And(b4, Drop(Op(Some("..."))));
    AndShape(b4, Drop(Op(Some("..."))));
    assert MethodParserWith(guard) == Map(body, WithDefaultReturns);
  }

  lemma EnumItemWellFormed()
    ensures WellFormed(EnumItem()) && Consumes(EnumItem())
  {
    TokenShapes(None);
    TokenShapes(Some(":"));
    MapShape(Name(None), "name");
    MapShape(Name(None), "type");
    MapShape(StringP(None), "docstring");
    MapShape(Op(Some(":")), "");
    var a1 := And(As(Name(None), "name"), Drop(Op(Some(":"))));
    AndShape(As(Name(None), "name"), Drop(Op(Some(":"))));
    var a2 := And(a1, As(Name(None), "type"));
    AndShape(a1, As(Name(None), "type"));
    AndShape(a2, As(StringP(None), "docstring"));
  }

  /** The guard holds no `many`, and with it an item still always takes a token. */
  lemma GuardedItemWellFormed()
    ensures WellFormed(GuardedEnumItem()) && Consumes(GuardedEnumItem())
  {
    EnumItemWellFormed();
    TokenShapes(None);
    TokenShapes(Some("class"));
    TokenShapes(Some("def"));
    OrShape(Name(Some("class")), Name(Some("def")));
    OrShape(Or(Name(Some("class")), Name(Some("def"))), NotAhead(Name(None)));
    MapShape(NotAhead(NotItemStart()), "");
    AndShape(Drop(NotAhead(NotItemStart())), EnumItem());
  }

  lemma EnumWellFormed(guard: bool)
    ensures WellFormed(EnumParserWith(guard)) && Consumes(EnumParserWith(guard))
  {
    var item := ItemParser(guard);
    GuardedItemWellFormed();
    EnumItemWellFormed();
    TokenShapes(None);
    TokenShapes(Some(":"));
    TokenShapes(Some("class"));
    MapShape(Name(None), "name");
    MapShape(Op(Some(":")), "");
    MapShape(Name(Some("class")), "");
    MaybeShape(StringP(None));
    MapShape(Maybe(StringP(None)), "");
    MapShape(Many(item), "items");
    CommitShape(Drop(Name(Some("class"))));
    var a1 := And(Commit(Drop(Name(Some("class")))), As(Name(None), "name"));
    AndShape(Commit(Drop(Name(Some("class")))), As(Name(None), "name"));
    var a2 := And(a1, Drop(Op(Some(":"))));
    AndShape(a1, Drop(Op(Some(":"))));
    var a3 := And(a2, Drop(Maybe(StringP(None))));
    AndShape(a2, Drop(Maybe(StringP(None))));
    AndShape(a3, As(Many(item), "items"));
  }

  lemma ImportWellFormed()
    ensures WellFormed(Drop(Many(ImportParser())))
  {
    TokenShapes(None);
    TokenShapes(Some(","));
    TokenShapes(Some("from"));
    TokenShapes(Some("import"));
    MapShape(Name(None), "module");
    MapShape(Name(Some("from")), "");
    MapShape(Name(Some("import")), "");
    MapShape(Op(Some(",")), "");
    var rest := And(Drop(Op(Some(","))), Name(None));
    AndShape(Drop(Op(Some(","))), Name(None));
    var names := And(Name(None), Many(rest));
    AndShape(Name(None), Many(rest));
    assert SepBy(Op(Some(",")), Name(None)) == names;
    MapShape(names, "names");
    assert WellFormed(ImportParser()) && Consumes(ImportParser());
    MapShape(Many(ImportParser()), "");
  }

  lemma AssignmentWellFormed()
    ensures WellFormed(Assignment()) && Consumes(Assignment())
  {
    TokenShapes(None);
    TokenShapes(Some("="));
    TokenShapes(Some("("));
    TokenShapes(Some(")"));
    MapShape(Name(None), "");
    MapShape(Op(Some("=")), "");
    MaybeShape(Op(Some("(")));
    MaybeShape(Op(Some(")")));
    MaybeShape(StringP(None));
    MapShape(Maybe(Op(Some("("))), "");
    MapShape(Maybe(Op(Some(")"))), "");
    MapShape(Maybe(StringP(None)), "");
    var a1 := And(Drop(Name(None)), Drop(Op(Some("="))));
    AndShape(Drop(Name(None)), Drop(Op(Some("="))));
    var a2 := And(a1, Drop(Name(None)));
    AndShape(a1, Drop(Name(None)));
    var a3 := And(a2, Drop(Maybe(Op(Some("(")))));
    AndShape(a2, Drop(Maybe(Op(Some("(")))));
    var a4 := And(a3, Drop(Maybe(Op(Some(")")))));
    AndShape(a3, Drop(Maybe(Op(Some(")")))));
    AndShape(a4, Drop(Maybe(StringP(None))));
  }

  /** Every `many` in the grammar repeats a parser that always takes a token. */
  lemma GrammarWellFormed(guard: bool, guardParams: bool)
    ensures WellFormed(Comments()) && WellFormed(Drop(Many(ImportParser())))
    ensures WellFormed(EnumParserWith(guard)) && WellFormed(Assignment()) && WellFormed(MethodParserWith(guardParams))
    ensures WellFormed(Drop(Eof()))
    ensures Consumes(EnumParserWith(guard)) && Consumes(Assignment()) && Consumes(MethodParserWith(guardParams))
  {
    MethodWellFormed(guardParams);
    EnumWellFormed(guard);
    ImportWellFormed();
    AssignmentWellFormed();
    MapShape(Many(Comment()), "");
    MapShape(Eof(), "");
  }

  lemma CommentsWellFormed()
    ensures WellFormed(Comments())
  {
    MapShape(Many(Comment()), "");
  }

  lemma OrThrowNeverHangs(p: Parser, toks: seq<Token>, st: State, keepTag: bool)
    requires WellFormed(p)
    ensures OrThrow(p, toks, st, keepTag) != Err(Hangs)
  {
    NoDivergence(p, toks, st, keepTag);
  }

  lemma {:induction false} LoopNeverHangs(item: Parser, toks: seq<Token>, st: State, acc: seq<Value>, fx: Fixes)
    requires Consumes(item) && WellFormed(item)
    ensures Loop(item, toks, st, acc, fx) != Err(Hangs)
    decreases Rem(toks, st)
  {
    CommentsWellFormed();
    OrThrowNeverHangs(Comments(), toks, Begin(st, fx.reset), fx.keepTag);
    var c := OrThrow(Comments(), toks, Begin(st, fx.reset), fx.keepTag);
    if c.Ok? {
      NoDivergence(item, toks, Begin(c.value.st, fx.reset), fx.keepTag);
      var r := Eval(item, toks, Begin(c.value.st, fx.reset), fx.keepTag);
      if r.out.Success? {
        ConsumesAdvances(item, toks, Begin(c.value.st, fx.reset), fx.keepTag);
        LoopNeverHangs(item, toks, r.st, acc + [r.out.value], fx);
        assert Loop(item, toks, st, acc, fx) == Loop(item, toks, r.st, acc + [r.out.value], fx);
      }
    } else {
      assert Loop(item, toks, st, acc, fx) == Err(c.error);
    }
  }

  lemma AfterEnumsNeverHangs(toks: seq<Token>, enums: Collected, fx: Fixes)
    ensures AfterEnums(toks, enums, fx) != Err(Hangs)
  {
    GrammarWellFormed(fx.guardItems, fx.guardParams);
    LoopNeverHangs(Assignment(), toks, enums.st, [], fx);
    var assigns := Loop(Assignment(), toks, enums.st, [], fx);
    if assigns.Ok? {
      LoopNeverHangs(MethodParserWith(fx.guardParams), toks, assigns.value.st, [], fx);
      var methods := Loop(MethodParserWith(fx.guardParams), toks, assigns.value.st, [], fx);
      if methods.Ok? {
        OrThrowNeverHangs(Drop(Eof()), toks, Begin(methods.value.st, fx.reset), fx.keepTag);
      }
    }
  }

  /** `parseAST` always returns or throws: none of its loops spins in place. */
  lemma DriverNeverHangs(toks: seq<Token>, fx: Fixes)
    ensures DriverWith(toks, fx) != Err(Hangs)
  {
    GrammarWellFormed(fx.guardItems, fx.guardParams);
    OrThrowNeverHangs(Comments(), toks, Begin(State(0, false), fx.reset), fx.keepTag);
    var c := OrThrow(Comments(), toks, Begin(State(0, false), fx.reset), fx.keepTag);
    if c.Ok? {
      OrThrowNeverHangs(Drop(Many(ImportParser())), toks, Begin(c.value.st, fx.reset), fx.keepTag);
      var i := OrThrow(Drop(Many(ImportParser())), toks, Begin(c.value.st, fx.reset), fx.keepTag);
      if i.Ok? {
        LoopNeverHangs(EnumParserWith(fx.guardItems), toks, i.value.st, [], fx);
        var enums := Loop(EnumParserWith(fx.guardItems), toks, i.value.st, [], fx);
        if enums.Ok? {
          AfterEnumsNeverHangs(toks, enums.value, fx);
        }
      }
    }
  }
}
