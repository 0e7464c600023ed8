/**
 * The Elm-style parser results of src/parser/elm.ts: a parser is a function from a state
 * to a step that is `Good` (a value and the new state) or `Bad` (a bag of dead ends),
 * each with a `committed` flag. Dead ends are collected in a bag (a tree) and turned
 * into a list, left to right, by `bagToList`.
 */
module Elm {
  import opened Wrappers

  /** A UTF-16 code unit: the source text is a JavaScript string. */
  type CodeUnit = bv16

  datatype Located<C> = Located(context: C, row: int, col: int)

  datatype State<C> = State(src: seq<CodeUnit>, offset: int, indent: int, context: seq<Located<C>>, row: int, col: int)

  datatype DeadEnd<C, X> = DeadEnd(row: int, col: int, problem: X, contextStack: seq<Located<C>>)

  datatype Bag<C, X> =
    | Empty
    | AddRight(left: Bag<C, X>, last: DeadEnd<C, X>)
    | Append(front: Bag<C, X>, back: Bag<C, X>)

  datatype PStep<C, X, A> =
    | Good(committed: bool, value: A, state: State<C>)
    | Bad(committed: bool, problems: Bag<C, X>)

  type Parser<!C, X, A> = State<C> -> PStep<C, X, A>

  // ---- bags ----

  /** `bagToList(bag, list)` */
  function BagToList<C, X>(bag: Bag<C, X>, list: seq<DeadEnd<C, X>>): seq<DeadEnd<C, X>>
  {
    match bag
    case Empty => list
    case AddRight(left, right) => BagToList(left, [right] + list)
    case Append(left, right) => BagToList(left, BagToList(right, list))
  }

  /** The dead ends of a bag, left to right. */
  function Flatten<C, X>(bag: Bag<C, X>): seq<DeadEnd<C, X>>
  {
    match bag
    case Empty => []
    case AddRight(left, right) => Flatten(left) + [right]
    case Append(left, right) => Flatten(left) + Flatten(right)
  }

  /** `bagToList` puts the bag's dead ends, left to right, in front of the list. */
  lemma {:induction false} BagToListIsFlatten<C, X>(bag: Bag<C, X>, list: seq<DeadEnd<C, X>>)
    ensures BagToList(bag, list) == Flatten(bag) + list
  {
    match bag
    case Empty =>
    case AddRight(left, right) =>
      BagToListIsFlatten(left, [right] + list);
      assert Flatten(left) + ([right] + list) == Flatten(left) + [right] + list;
    case Append(left, right) =>
      BagToListIsFlatten(right, list);
      BagToListIsFlatten(left, Flatten(right) + list);
      assert Flatten(left) + (Flatten(right) + list) == Flatten(left) + Flatten(right) + list;
  }

  /** `fromState(s, x)`: one dead end at the state's position, with its context. */
  function FromState<C, X>(s: State<C>, x: X): (bag: Bag<C, X>)
    ensures Flatten(bag) == [DeadEnd(s.row, s.col, x, s.context)]
  {
    AddRight(Empty, DeadEnd(s.row, s.col, x, s.context))
  }

  /** `fromInfo(row, col, x, context)` */
  function FromInfo<C, X>(row: int, col: int, x: X, context: seq<Located<C>>): (bag: Bag<C, X>)
    ensures Flatten(bag) == [DeadEnd(row, col, x, context)]
  {
    AddRight(Empty, DeadEnd(row, col, x, context))
  }

  // ---- parsers ----

  /** `succeed(a)` */
  function Succeed<C, X, A>(a: A): Parser<C, X, A>
  {
    s => Good(false, a, s)
  }

  /** `problem(x)` */
  function Problem<C, X, A>(x: X): Parser<C, X, A>
  {
    s => Bad(false, FromState(s, x))
  }

  /** `map(func, parser)` */
  function Map<C, X, A, B>(func: A -> B, p: Parser<C, X, A>): Parser<C, X, B>
  {
    s =>
      match p(s)
      case Bad(committed, problems) => Bad(committed, problems)
      case Good(committed, value, state) => Good(committed, func(value), state)
  }

  /** `map2(func, parseA, parseB)`: B runs from A's state; the step is committed if either is. */
  function Map2<C, X, A, B, V>(func: (A, B) -> V, pa: Parser<C, X, A>, pb: Parser<C, X, B>): Parser<C, X, V>
  {
    s =>
      match pa(s)
      case Bad(committed, problems) => Bad(committed, problems)
      case Good(ca, va, sa) =>
        match pb(sa)
        case Bad(cb, problems) => Bad(ca || cb, problems)
        case Good(cb, vb, sb) => Good(ca || cb, func(va, vb), sb)
  }

  /** `keeper(parseFunc, parseArg)`: apply the parsed function to the parsed argument. */
  function Keeper<C, X, A, B>(pf: Parser<C, X, A -> B>, pa: Parser<C, X, A>): Parser<C, X, B>
  {
    Map2((f: A -> B, a: A) => f(a), pf, pa)
  }

  /** `ignorer(keepParser, ignoreParser)`: keep the first value. */
  function Ignorer<C, X, K, I>(pk: Parser<C, X, K>, pi: Parser<C, X, I>): Parser<C, X, K>
  {
    Map2((k: K, i: I) => k, pk, pi)
  }

  /** The state `run` starts from. */
  function Initial<C>(src: seq<CodeUnit>): State<C>
  {
    State(src, 0, 1, [], 1, 1)
  }

  /** `run(parser, src)`: the value, or the dead ends in order. */
  function Run<C, X, A>(p: Parser<C, X, A>, src: seq<CodeUnit>): Result<A, seq<DeadEnd<C, X>>>
  {
    match p(Initial(src))
    case Good(_, value, _) => Ok(value)
    case Bad(_, problems) => Err(BagToList(problems, []))
  }

  // ---- properties ----

  /** `succeed` is a good, uncommitted step that leaves the state as it is. */
  lemma SucceedLeavesState<C, X, A>(a: A, s: State<C>)
    ensures var r := Succeed<C, X, A>(a)(s); r.Good? && !r.committed && r.value == a && r.state == s
  {
  }

  /** `problem` is a bad, uncommitted step whose one dead end is at the state's position. */
  lemma ProblemAtState<C, X, A>(x: X, s: State<C>)
    ensures var r := Problem<C, X, A>(x)(s);
      r.Bad? && !r.committed && BagToList(r.problems, []) == [DeadEnd(s.row, s.col, x, s.context)]
  {
    BagToListIsFlatten(FromState(s, x), []);
  }

  /** `run` of `succeed(a)` is `Ok(a)`; `run` of `problem(x)` reports `x` at row 1, column 1. */
  lemma RunBasics<C, X, A>(a: A, x: X, src: seq<CodeUnit>)
    ensures Run(Succeed<C, X, A>(a), src) == Ok(a)
    ensures Run(Problem<C, X, A>(x), src) == Err([DeadEnd<C, X>.DeadEnd(1, 1, x, [])])
  {
    var s := Initial<C>(src);
    var bag := FromState<C, X>(s, x);
    assert Problem<C, X, A>(x)(s) == Bad(false, bag);
    BagToListIsFlatten(bag, []);
    assert BagToList(bag, []) == [DeadEnd(1, 1, x, [])];
  }

  /** `map` leaves a bad step as it is and changes only the value of a good one. */
  lemma MapStep<C, X, A, B>(func: A -> B, p: Parser<C, X, A>, s: State<C>)
    ensures var r, q := Map(func, p)(s), p(s);
      r.Good? == q.Good? && r.committed == q.committed
      && (q.Bad? ==> r == Bad(q.committed, q.problems))
      && (q.Good? ==> r.value == func(q.value) && r.state == q.state)
  {
  }

  /** Mapping the identity changes nothing. */
  lemma MapIdentity<C, X, A>(p: Parser<C, X, A>, s: State<C>)
    ensures Map((a: A) => a, p)(s) == p(s)
  {
  }

  /** Mapping twice is mapping the composition. */
  lemma MapCompose<C, X, A, B, D>(f: A -> B, g: B -> D, p: Parser<C, X, A>, s: State<C>)
    ensures Map(g, Map(f, p))(s) == Map((a: A) => g(f(a)), p)(s)
  {
  }

  /**
   * `map2`: a bad first step is the result; otherwise the second parser runs from the
   * first one's state, and the result is committed iff either step was.
   */
  lemma Map2Step<C, X, A, B, V>(func: (A, B) -> V, pa: Parser<C, X, A>, pb: Parser<C, X, B>, s: State<C>)
    ensures var r, ra := Map2(func, pa, pb)(s), pa(s);
      (ra.Bad? ==> r == Bad(ra.committed, ra.problems))
      && (ra.Good? ==>
            var rb := pb(ra.state);
            r.Good? == rb.Good? && r.committed == (ra.committed || rb.committed)
            && (rb.Bad? ==> r.problems == rb.problems)
            && (rb.Good? ==> r.value == func(ra.value, rb.value) && r.state == rb.state))
  {
  }

  /** `succeed` on the left of `map2` is a `map` of the right. */
  lemma Map2SucceedLeft<C, X, A, B, V>(func: (A, B) -> V, a: A, pb: Parser<C, X, B>, s: State<C>)
    ensures Map2(func, Succeed(a), pb)(s) == Map((b: B) => func(a, b), pb)(s)
  {
  }

  /** `ignorer` keeps the first value and the second state. */
  lemma IgnorerKeepsFirst<C, X, K, I>(pk: Parser<C, X, K>, pi: Parser<C, X, I>, s: State<C>)
    ensures var r, rk := Ignorer(pk, pi)(s), pk(s);
      r.Good? ==> rk.Good? && r.value == rk.value && r.state == pi(rk.state).state
  {
  }

  /** `keeper` applies the parsed function to the parsed argument. */
  lemma KeeperApplies<C, X, A, B>(pf: Parser<C, X, A -> B>, pa: Parser<C, X, A>, s: State<C>)
    ensures var r, rf := Keeper(pf, pa)(s), pf(s);
      r.Good? ==> rf.Good? && pa(rf.state).Good? && r.value == rf.value(pa(rf.state).value)
  {
  }

  /** The example bag of the doc comment on `bagToList`: two dead ends, `a` then `b`. */
  lemma BagExample<C, X>(a: X, b: X)
    ensures var d1, d2 := DeadEnd<C, X>.DeadEnd(1, 1, a, []), DeadEnd<C, X>.DeadEnd(2, 2, b, []);
      BagToList(AddRight(AddRight(Empty, d1), d2), []) == [d1, d2]
  {
    var d1, d2 := DeadEnd<C, X>.DeadEnd(1, 1, a, []), DeadEnd<C, X>.DeadEnd(2, 2, b, []);
    BagToListIsFlatten(AddRight(AddRight(Empty, d1), d2), []);
    assert Flatten(AddRight(Empty, d1)) == [d1];
  }

  /** A dead end at row 1, column 1, with no context: the shape of each dead end in the `bagToList` test. */
  function At11<C, X>(problem: X): (d: DeadEnd<C, X>)
    ensures d.row == 1 && d.col == 1 && d.problem == problem && d.contextStack == []
  {
    DeadEnd(1, 1, problem, [])
  }

  /** Two dead ends added to the empty bag, `x` then `y`. */
  function PairBag<C, X>(x: X, y: X): Bag<C, X>
  {
    AddRight(AddRight(Empty, At11(x)), At11(y))
  }

  /**
   * The bag of the `bagToList` test, `a b` appended to `c d` appended to `e f`, lists all
   * six dead ends, `a` to `f`, in order.
   */
  lemma BagTestListsAll<C, X>(a: X, b: X, c: X, d: X, e: X, f: X)
    ensures BagToList(Append(PairBag<C, X>(a, b), Append(PairBag<C, X>(c, d), PairBag<C, X>(e, f))), [])
         == [At11(a), At11(b), At11(c), At11(d), At11(e), At11(f)]
  {
    var bag := Append(PairBag<C, X>(a, b), Append(PairBag<C, X>(c, d), PairBag<C, X>(e, f)));
    BagToListIsFlatten(bag, []);
    FlattenPair<C, X>(a, b);
    FlattenPair<C, X>(c, d);
    FlattenPair<C, X>(e, f);
  }

  /** Two dead ends added to the empty bag flatten to those two, in order. */
  lemma FlattenPair<C, X>(x: X, y: X)
    ensures Flatten(PairBag<C, X>(x, y)) == [At11(x), At11(y)]
  {
    assert Flatten(AddRight(Empty, At11<C, X>(x))) == [At11(x)];
  }
}
