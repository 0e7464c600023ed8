/**
 * Properties of the engine: what each combinator promises on success and failure,
 * when a failure leaves the offset where it was, when ordered choice falls through,
 * what `many` collects, and when `many` cannot loop forever.
 */
module BaseLaws {
  import opened Wrappers
  import opened Tokenizer
  import opened Merging
  import opened Base

  // ---- single combinators ----

  /**
   * `token`: no match when the stream is done; otherwise it takes exactly one token
   * exactly when the token fits, and a mismatch leaves the state as it was.
   */
  lemma MatchContract(kind: TokenType, value: Option<string>, toks: seq<Token>, st: State, keepTag: bool)
    ensures var r := Eval(Match(kind, value), toks, st, keepTag);
      && (st.offset >= |toks| ==> r == Res(Failure(false), st))
      && (st.offset < |toks| ==> (r.out.Success? <==> Matches(toks[st.offset], kind, value)))
      && (r.out.Success? ==> r.out.value == Tok(toks[st.offset]) && r.st == st.(offset := st.offset + 1))
      && (r.out.Failure? ==> r == Res(Failure(false), st))
      && !r.out.Fatal? && !r.out.Diverge?
  {
  }

  /**
   * `and`: a failure of the first parser is passed on with its `matched` and the
   * offset restored; a failure of the second is `failure(true)` with the offset
   * restored; both are fatal instead when the stream is eager and input was matched.
   * Two successes are merged, by the merge `keepTag` picks.
   */
  lemma AndContract(a: Parser, b: Parser, toks: seq<Token>, st: State, keepTag: bool)
    ensures var r := Eval(And(a, b), toks, st, keepTag);
      var r1 := Eval(a, toks, st, keepTag);
      && (r1.out.Failure? && !(r1.st.eager && r1.out.matched) ==>
            r == Res(Failure(r1.out.matched), r1.st.(offset := st.offset)))
      && (r1.out.Failure? && r1.st.eager && r1.out.matched ==>
            r.out.Fatal? && r.out.error.offset == r1.st.offset)
      && (r1.out.Success? ==>
            var r2 := Eval(b, toks, r1.st, keepTag);
            && (r2.out.Failure? && !r2.st.eager ==> r == Res(Failure(true), r2.st.(offset := st.offset)))
            && (r2.out.Failure? && r2.st.eager ==> r.out.Fatal? && r.out.error.offset == r2.st.offset)
            && (r2.out.Success? ==> r == Res(Success(MergeWith(r1.out.value, r2.out.value, keepTag)), r2.st)))
  {
    var r1 := Eval(a, toks, st, keepTag);
    if r1.out.Failure? {
      assert Eval(And(a, b), toks, st, keepTag) == TryBacktrack(toks, r1.st, st.offset, r1.out.matched);
    } else if r1.out.Success? {
      AndSecondPart(a, b, toks, st, keepTag);
    }
  }

  /** The second half of `and`, once the first parser succeeded. */
  lemma AndSecondPart(a: Parser, b: Parser, toks: seq<Token>, st: State, keepTag: bool)
    requires Eval(a, toks, st, keepTag).out.Success?
    ensures var r := Eval(And(a, b), toks, st, keepTag);
      var r1 := Eval(a, toks, st, keepTag);
      var r2 := Eval(b, toks, r1.st, keepTag);
      && (r2.out.Failure? ==> r == TryBacktrack(toks, r2.st, st.offset, true))
      && (r2.out.Success? ==> r == Res(Success(MergeWith(r1.out.value, r2.out.value, keepTag)), r2.st))
  {
    var r1 := Eval(a, toks, st, keepTag);
    var r2 := Eval(b, toks, r1.st, keepTag);
    if r2.out.Failure? {
      AndSecondFails(a, b, toks, st, r1, r2, keepTag);
    } else if r2.out.Success? {
      AndBothSucceed(a, b, toks, st, r1, r2, keepTag);
    }
  }

  lemma AndSecondFails(a: Parser, b: Parser, toks: seq<Token>, st: State, r1: Res, r2: Res, keepTag: bool)
    requires r1 == Eval(a, toks, st, keepTag) && r1.out.Success?
    requires r2 == Eval(b, toks, r1.st, keepTag) && r2.out.Failure?
    ensures Eval(And(a, b), toks, st, keepTag) == TryBacktrack(toks, r2.st, st.offset, true)
  {
  }

  lemma AndBothSucceed(a: Parser, b: Parser, toks: seq<Token>, st: State, r1: Res, r2: Res, keepTag: bool)
    requires r1 == Eval(a, toks, st, keepTag) && r1.out.Success?
    requires r2 == Eval(b, toks, r1.st, keepTag) && r2.out.Success?
    ensures Eval(And(a, b), toks, st, keepTag) == Res(Success(MergeWith(r1.out.value, r2.out.value, keepTag)), r2.st)
  {
  }

  /** `map` passes failures through and transforms only the value of a success. */
  lemma MapContract(p: Parser, f: Value -> Value, toks: seq<Token>, st: State, keepTag: bool)
    ensures var r := Eval(Map(p, f), toks, st, keepTag);
      var inner := Eval(p, toks, st, keepTag);
      && r.st == inner.st
      && (inner.out.Success? ==> r.out == Success(f(inner.out.value)))
      && (!inner.out.Success? ==> r.out == inner.out)
  {
  }

  /** `if` with a false predicate is `failure(true)` and leaves the offset where the inner parser put it. */
  lemma IfContract(p: Parser, pred: Value -> bool, toks: seq<Token>, st: State, keepTag: bool)
    ensures var r := Eval(If(p, pred), toks, st, keepTag);
      var inner := Eval(p, toks, st, keepTag);
      && r.st == inner.st
      && (inner.out.Success? && !pred(inner.out.value) ==> r.out == Failure(true))
      && (!(inner.out.Success? && !pred(inner.out.value)) ==> r.out == inner.out)
  {
  }

  /** `maybe` never fails: a failure of the inner parser becomes `null`. */
  lemma MaybeContract(p: Parser, toks: seq<Token>, st: State, keepTag: bool)
    ensures var r := Eval(Maybe(p), toks, st, keepTag);
      var inner := Eval(p, toks, st, keepTag);
      && !r.out.Failure?
      && r.st == inner.st
      && (inner.out.Failure? ==> r.out == Success(Null))
      && (!inner.out.Failure? ==> r.out == inner.out)
  {
  }

  /**
   * `commit`: a success makes the stream eager, a failure that matched input is
   * fatal at the offset the inner parser reached, and any other failure passes through.
   */
  lemma CommitContract(p: Parser, toks: seq<Token>, st: State, keepTag: bool)
    ensures var r := Eval(Commit(p), toks, st, keepTag);
      var inner := Eval(p, toks, st, keepTag);
      && (inner.out.Success? ==> r == Res(inner.out, inner.st.(eager := true)))
      && (inner.out.Failure? && inner.out.matched ==>
            r.out == Fatal(ErrorAt(toks, inner.st.offset)))
      && (inner.out.Failure? && !inner.out.matched ==> r == inner)
  {
  }

  /**
   * The lookaheads of `with` and `without` always put the offset back; the one of
   * `without` succeeds exactly when its parser fails.
   */
  lemma LookaheadContract(q: Parser, toks: seq<Token>, st: State, keepTag: bool)
    ensures var r := Eval(Ahead(q), toks, st, keepTag);
      Normal(r.out) ==> r.out == Eval(q, toks, st, keepTag).out && r.st.offset == st.offset
    ensures var r := Eval(NotAhead(q), toks, st, keepTag);
      Normal(r.out) ==>
        && r.st.offset == st.offset
        && (r.out.Success? <==> Eval(q, toks, st, keepTag).out.Failure?)
        && (r.out.Success? ==> r.out.value == Null)
        && (r.out.Failure? ==> !r.out.matched)
  {
  }

  /** `p.without(q)` succeeds exactly when `p` does and `q` then fails, with `p`'s value and end offset. */
  lemma WithoutContract(p: Parser, q: Parser, toks: seq<Token>, st: State, keepTag: bool)
    requires Eval(p, toks, st, keepTag).out.Success?
    requires Normal(Eval(q, toks, Eval(p, toks, st, keepTag).st, keepTag).out)
    ensures var r1 := Eval(p, toks, st, keepTag);
      var look := Eval(q, toks, r1.st, keepTag);
      var r := Eval(Without(p, q), toks, st, keepTag);
      && (r.out.Success? <==> look.out.Failure?)
      && (r.out.Success? ==> r.out.value == r1.out.value && r.st.offset == r1.st.offset)
  {
    var r1 := Eval(p, toks, st, keepTag);
    NotAheadDropped(q, toks, r1.st, keepTag);
    assert MergeWith(r1.out.value, Dropped, keepTag) == r1.out.value;
    AndSecondPart(p, Drop(NotAhead(q)), toks, st, keepTag);
  }

  /** `p.with(q)` succeeds exactly when both do, with `p`'s value and end offset. */
  lemma WithContract(p: Parser, q: Parser, toks: seq<Token>, st: State, keepTag: bool)
    requires Eval(p, toks, st, keepTag).out.Success?
    requires Normal(Eval(q, toks, Eval(p, toks, st, keepTag).st, keepTag).out)
    ensures var r1 := Eval(p, toks, st, keepTag);
      var look := Eval(q, toks, r1.st, keepTag);
      var r := Eval(With(p, q), toks, st, keepTag);
      && (r.out.Success? <==> look.out.Success?)
      && (r.out.Success? ==> r.out.value == r1.out.value && r.st.offset == r1.st.offset)
  {
    var r1 := Eval(p, toks, st, keepTag);
    AheadDropped(q, toks, r1.st, keepTag);
    assert MergeWith(r1.out.value, Dropped, keepTag) == r1.out.value;
    AndSecondPart(p, Drop(Ahead(q)), toks, st, keepTag);
  }

  /** A dropped negative lookahead succeeds, with nothing to keep, exactly when `q` fails; it never moves. */
  lemma NotAheadDropped(q: Parser, toks: seq<Token>, s: State, keepTag: bool)
    requires Normal(Eval(q, toks, s, keepTag).out)
    ensures var look, d := Eval(q, toks, s, keepTag), Eval(Drop(NotAhead(q)), toks, s, keepTag);
      && d.st.offset == s.offset && (d.out.Success? <==> look.out.Failure?)
      && (d.out.Success? ==> d.out.value == Dropped) && (!d.out.Success? ==> d.out == Failure(false))
  {
    var look := Eval(q, toks, s, keepTag);
    assert Eval(NotAhead(q), toks, s, keepTag)
        == Res(if look.out.Success? then Failure(false) else Success(Null), look.st.(offset := s.offset));
  }

  /** A dropped lookahead succeeds, with nothing to keep, exactly when `q` does; it never moves. */
  lemma AheadDropped(q: Parser, toks: seq<Token>, s: State, keepTag: bool)
    requires Normal(Eval(q, toks, s, keepTag).out)
    ensures var look, d := Eval(q, toks, s, keepTag), Eval(Drop(Ahead(q)), toks, s, keepTag);
      && d.st.offset == s.offset && (d.out.Success? <==> look.out.Success?)
      && (d.out.Success? ==> d.out.value == Dropped) && (!d.out.Success? ==> d.out == look.out)
  {
    var look := Eval(q, toks, s, keepTag);
    assert Eval(Ahead(q), toks, s, keepTag) == Res(look.out, look.st.(offset := s.offset));
  }

  // ---- failure and offsets ----

  /** No `if` anywhere in the parser. */
  predicate IfFree(p: Parser)
  {
    match p
    case Match(_, _) => true
    case Map(q, _) => IfFree(q)
    case If(_, _) => false
    case Or(a, b) => IfFree(a) && IfFree(b)
    case And(a, b) => IfFree(a) && IfFree(b)
    case Maybe(q) => IfFree(q)
    case Many(q) => IfFree(q)
    case Commit(q) => IfFree(q)
    case Ahead(q) => IfFree(q)
    case NotAhead(q) => IfFree(q)
    case TypeScan(_) => true
  }

  /**
   * Without `if`, every failure leaves the offset where it was: each combinator
   * either restores it or passes on a failure that already did.
   */
  lemma {:induction false} FailureRestoresOffset(p: Parser, toks: seq<Token>, st: State, keepTag: bool)
    requires IfFree(p)
    ensures Eval(p, toks, st, keepTag).out.Failure? ==> Eval(p, toks, st, keepTag).st.offset == st.offset
  {
    match p
    case Match(_, _) =>
    case Map(q, _) => FailureRestoresOffset(q, toks, st, keepTag);
    case If(_, _) =>
    case Or(a, b) =>
      var r := Eval(a, toks, st, keepTag);
      FailureRestoresOffset(a, toks, st, keepTag);
      if r.out.Failure? {
        FailureRestoresOffset(b, toks, r.st, keepTag);
      }
    case And(_, _) =>
    case Maybe(_) =>
    case Many(_) =>
    case Commit(q) => FailureRestoresOffset(q, toks, st, keepTag);
    case Ahead(_) =>
    case NotAhead(_) =>
    case TypeScan(_) =>
  }

  /** The outcome with the value of a success forgotten. */
  function Kind(o: Outcome): Outcome
  {
    if o.Success? then Success(Null) else o
  }

  /** Two results that differ at most in the value of a success. */
  predicate SameShape(r: Res, s: Res)
  {
    r.st == s.st && Kind(r.out) == Kind(s.out)
  }

  /**
   * The merge decides values and nothing else: without `if` (whose predicate reads
   * values), the as-written and the corrected merge give the same outcome kind, the
   * same failure, the same syntax error and the same state.
   */
  lemma {:induction false} MergeOnlyChangesValues(p: Parser, toks: seq<Token>, st: State)
    requires IfFree(p)
    ensures SameShape(Eval(p, toks, st, false), Eval(p, toks, st, true))
    decreases Rem(toks, st), Rank(st), p, 0
  {
    match p
    case Match(_, _) =>
    case Map(q, _) => MergeOnlyChangesValues(q, toks, st);
    case If(_, _) =>
    case Or(a, b) =>
      MergeOnlyChangesValues(a, toks, st);
      var r := Eval(a, toks, st, true);
      if r.out.Failure? {
        MergeOnlyChangesValues(b, toks, r.st);
      }
    case And(a, b) =>
      MergeOnlyChangesValues(a, toks, st);
      var r := Eval(a, toks, st, true);
      if r.out.Success? {
        MergeOnlyChangesValues(b, toks, r.st);
      }
    case Maybe(q) => MergeOnlyChangesValues(q, toks, st);
    case Many(q) => ManyLoopOnlyChangesValues(q, toks, st, [], []);
    case Commit(q) => MergeOnlyChangesValues(q, toks, st);
    case Ahead(q) => MergeOnlyChangesValues(q, toks, st);
    case NotAhead(q) => MergeOnlyChangesValues(q, toks, st);
    case TypeScan(_) =>
  }

  /** The loop of `many` under either merge: the same shape, and as many values collected. */
  lemma {:induction false} ManyLoopOnlyChangesValues(q: Parser, toks: seq<Token>, st: State, acc1: seq<Value>, acc2: seq<Value>)
    requires IfFree(q) && |acc1| == |acc2|
    ensures var r1, r2 := ManyLoop(q, toks, st, acc1, false), ManyLoop(q, toks, st, acc2, true);
      SameShape(r1, r2) && (r1.out.Success? ==> |r1.out.value.items| == |r2.out.value.items|)
    decreases Rem(toks, st), Rank(st), q, 1
  {
    MergeOnlyChangesValues(q, toks, st);
    var r1 := Eval(q, toks, st, false);
    var r2 := Eval(q, toks, st, true);
    if r2.out.Success? && r2.st != st {
      ManyLoopOnlyChangesValues(q, toks, r2.st, acc1 + [r1.out.value], acc2 + [r2.out.value]);
    }
  }

  /** `if` is the exception: a rejected value leaves the token it consumed consumed. */
  lemma IfLeavesOffsetAdvanced(keepTag: bool)
    ensures var toks := [Token(NAME, "a")];
      Eval(If(Match(NAME, None), _ => false), toks, State(0, false), keepTag) == Res(Failure(true), State(1, false))
  {
  }

  /**
   * Ordered choice: when the first alternative fails without `if` inside, `or` is the
   * second alternative run from the same offset (with the eager flag the first left),
   * and exactly the second alternative when the stream was already eager.
   */
  lemma OrFallsThrough(p: Parser, q: Parser, toks: seq<Token>, st: State, keepTag: bool)
    requires IfFree(p) && Eval(p, toks, st, keepTag).out.Failure?
    ensures Eval(Or(p, q), toks, st, keepTag) == Eval(q, toks, State(st.offset, Eval(p, toks, st, keepTag).st.eager), keepTag)
    ensures st.eager ==> Eval(Or(p, q), toks, st, keepTag) == Eval(q, toks, st, keepTag)
  {
    FailureRestoresOffset(p, toks, st, keepTag);
  }

  /** `or` returns the first alternative's success untouched. */
  lemma OrFirstSuccess(p: Parser, q: Parser, toks: seq<Token>, st: State, keepTag: bool)
    requires Eval(p, toks, st, keepTag).out.Success?
    ensures Eval(Or(p, q), toks, st, keepTag) == Eval(p, toks, st, keepTag)
  {
  }

  /**
   * After a success, an optional second part never makes the sequence fail, and when
   * the second part matches, it gives the same result as the plain sequence.
   */
  lemma AndMaybe(p: Parser, q: Parser, toks: seq<Token>, st: State, keepTag: bool)
    requires Eval(p, toks, st, keepTag).out.Success?
    ensures !Eval(And(p, Maybe(q)), toks, st, keepTag).out.Failure?
    ensures Eval(And(p, q), toks, st, keepTag).out.Success? ==>
      Eval(And(p, Maybe(q)), toks, st, keepTag) == Eval(And(p, q), toks, st, keepTag)
  {
    var r1 := Eval(p, toks, st, keepTag);
    var rq := Eval(q, toks, r1.st, keepTag);
    var rm := Eval(Maybe(q), toks, r1.st, keepTag);
    assert rm.st == rq.st && !rm.out.Failure? && (!rq.out.Failure? ==> rm.out == rq.out);
    AndSecondPart(p, Maybe(q), toks, st, keepTag);
    AndSecondPart(p, q, toks, st, keepTag);
  }

  // ---- many ----

  /**
   * The states `q` passes through when it succeeds with the values `vs` one after
   * another, each success changing the state; `None` when it does not.
   */
  function Iterate(q: Parser, toks: seq<Token>, st: State, vs: seq<Value>, keepTag: bool): Option<State>
    decreases |vs|
  {
    if |vs| == 0 then Some(st)
    else
      var r := Eval(q, toks, st, keepTag);
      if r.out == Success(vs[0]) && r.st != st then Iterate(q, toks, r.st, vs[1..], keepTag) else None
  }

  lemma {:induction false} ManyLoopCollects(q: Parser, toks: seq<Token>, st: State, acc: seq<Value>, keepTag: bool)
    ensures var r := ManyLoop(q, toks, st, acc, keepTag);
      r.out.Success? ==>
        var rest := r.out.value.items[|acc|..];
        && Iterate(q, toks, st, rest, keepTag).Some?
        && var last := Eval(q, toks, Iterate(q, toks, st, rest, keepTag).value, keepTag);
        && last.out.Failure? && r.st == last.st
    decreases Rem(toks, st), Rank(st)
  {
    var r := Eval(q, toks, st, keepTag);
    if r.out.Success? && r.st != st {
      ManyLoopCollects(q, toks, r.st, acc + [r.out.value], keepTag);
      CollectsStep(q, toks, st, acc, keepTag);
    } else if r.out.Failure? {
      assert ManyLoop(q, toks, st, acc, keepTag).out.value.items[|acc|..] == [];
    }
  }

  /** What `ManyLoopCollects` states about one starting point. */
  predicate Collects(q: Parser, toks: seq<Token>, st: State, acc: seq<Value>, keepTag: bool)
  {
    var r := ManyLoop(q, toks, st, acc, keepTag);
    r.out.Success? ==>
      var rest := r.out.value.items[|acc|..];
      && Iterate(q, toks, st, rest, keepTag).Some?
      && var last := Eval(q, toks, Iterate(q, toks, st, rest, keepTag).value, keepTag);
      && last.out.Failure? && r.st == last.st
  }

  /** One successful, advancing round of `many` carries the statement back one step. */
  lemma CollectsStep(q: Parser, toks: seq<Token>, st: State, acc: seq<Value>, keepTag: bool)
    requires Eval(q, toks, st, keepTag).out.Success? && Eval(q, toks, st, keepTag).st != st
    requires Collects(q, toks, Eval(q, toks, st, keepTag).st, acc + [Eval(q, toks, st, keepTag).out.value], keepTag)
    ensures Collects(q, toks, st, acc, keepTag)
  {
    var r := Eval(q, toks, st, keepTag);
    var v := r.out.value;
    var m := ManyLoop(q, toks, r.st, acc + [v], keepTag);
    assert ManyLoop(q, toks, st, acc, keepTag) == m;
    if m.out.Success? {
      var rest := m.out.value.items[|acc|..];
      assert rest[0] == v;
      assert rest[1..] == m.out.value.items[|acc + [v]|..];
      assert Iterate(q, toks, st, rest, keepTag) == Iterate(q, toks, r.st, rest[1..], keepTag);
    }
  }

  /**
   * `many` collects the values of the successive successes of its parser in order,
   * stops at the first failure, and ends in the state that failure left.
   */
  lemma ManyCollects(q: Parser, toks: seq<Token>, st: State, keepTag: bool)
    ensures var r := Eval(Many(q), toks, st, keepTag);
      r.out.Success? ==>
        && Iterate(q, toks, st, r.out.value.items, keepTag).Some?
        && var last := Eval(q, toks, Iterate(q, toks, st, r.out.value.items, keepTag).value, keepTag);
        && last.out.Failure? && r.st == last.st
  {
    ManyLoopCollects(q, toks, st, [], keepTag);
    var r := Eval(Many(q), toks, st, keepTag);
    if r.out.Success? {
      assert r.out.value.items[0..] == r.out.value.items;
    }
  }

  /** `many` never fails. */
  lemma ManyNeverFails(q: Parser, toks: seq<Token>, st: State, keepTag: bool)
    ensures !Eval(Many(q), toks, st, keepTag).out.Failure?
  {
  }

  // ---- termination of many ----

  /** A success of the parser always takes at least one token. */
  predicate Consumes(p: Parser)
  {
    match p
    case Match(_, _) => true
    case Map(q, _) => Consumes(q)
    case If(q, _) => Consumes(q)
    case Or(a, b) => Consumes(a) && Consumes(b)
    case And(a, b) => Consumes(a) || Consumes(b)
    case Commit(q) => Consumes(q)
    case TypeScan(_) => true
    case Maybe(_) => false
    case Many(_) => false
    case Ahead(_) => false
    case NotAhead(_) => false
  }

  lemma {:induction false} ConsumesAdvances(p: Parser, toks: seq<Token>, st: State, keepTag: bool)
    requires Consumes(p)
    ensures Eval(p, toks, st, keepTag).out.Success? ==> Eval(p, toks, st, keepTag).st.offset > st.offset
  {
    match p
    case Match(_, _) =>
    case Map(q, _) => ConsumesAdvances(q, toks, st, keepTag);
    case If(q, _) => ConsumesAdvances(q, toks, st, keepTag);
    case Or(a, b) =>
      var r := Eval(a, toks, st, keepTag);
      ConsumesAdvances(a, toks, st, keepTag);
      ConsumesAdvances(b, toks, r.st, keepTag);
    case And(a, b) =>
      var r := Eval(a, toks, st, keepTag);
      if Consumes(a) {
        ConsumesAdvances(a, toks, st, keepTag);
      }
      if Consumes(b) {
        ConsumesAdvances(b, toks, r.st, keepTag);
      }
    case Commit(q) => ConsumesAdvances(q, toks, st, keepTag);
    case TypeScan(_) =>
  }

  /** Every `many` inside repeats a parser that always consumes input. */
  predicate WellFormed(p: Parser)
  {
    match p
    case Match(_, _) => true
    case Map(q, _) => WellFormed(q)
    case If(q, _) => WellFormed(q)
    case Or(a, b) => WellFormed(a) && WellFormed(b)
    case And(a, b) => WellFormed(a) && WellFormed(b)
    case Maybe(q) => WellFormed(q)
    case Many(q) => Consumes(q) && WellFormed(q)
    case Commit(q) => WellFormed(q)
    case Ahead(q) => WellFormed(q)
    case NotAhead(q) => WellFormed(q)
    case TypeScan(_) => true
  }

  /** A well-formed parser always returns or raises: `many` never spins in place. */
  lemma {:induction false} NoDivergence(p: Parser, toks: seq<Token>, st: State, keepTag: bool)
    requires WellFormed(p)
    ensures !Eval(p, toks, st, keepTag).out.Diverge?
    decreases p, 0, 0, 0
  {
    match p
    case Match(_, _) =>
    case Map(q, _) => NoDivergence(q, toks, st, keepTag);
    case If(q, _) => NoDivergence(q, toks, st, keepTag);
    case Or(a, b) =>
      NoDivergence(a, toks, st, keepTag);
      NoDivergence(b, toks, Eval(a, toks, st, keepTag).st, keepTag);
    case And(a, b) =>
      NoDivergence(a, toks, st, keepTag);
      NoDivergence(b, toks, Eval(a, toks, st, keepTag).st, keepTag);
    case Maybe(q) => NoDivergence(q, toks, st, keepTag);
    case Many(q) => ManyNoDivergence(q, toks, st, [], keepTag);
    case Commit(q) => NoDivergence(q, toks, st, keepTag);
    case Ahead(q) => NoDivergence(q, toks, st, keepTag);
    case NotAhead(q) => NoDivergence(q, toks, st, keepTag);
    case TypeScan(_) =>
  }

  lemma {:induction false} ManyNoDivergence(q: Parser, toks: seq<Token>, st: State, acc: seq<Value>, keepTag: bool)
    requires Consumes(q) && WellFormed(q)
    ensures !ManyLoop(q, toks, st, acc, keepTag).out.Diverge?
    decreases q, 1, Rem(toks, st), Rank(st)
  {
    NoDivergence(q, toks, st, keepTag);
    ConsumesAdvances(q, toks, st, keepTag);
    var r := Eval(q, toks, st, keepTag);
    if r.out.Success? {
      ManyNoDivergence(q, toks, r.st, acc + [r.out.value], keepTag);
    }
  }
}
