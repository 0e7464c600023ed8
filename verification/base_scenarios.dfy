/**
 * The behaviours the engine's tests describe, over streams of one-letter tokens:
 * `lit(x)` is the name parser for `x`, and a stream of characters is a stream of
 * one-character name tokens.
 */
module BaseScenarios {
  import opened Wrappers
  import opened Tokenizer
  import opened Merging
  import opened Base
  import opened TokenParsers

  function Lit(x: string): Parser { Name(Some(x)) }

  /** One name token per character. */
  function From(s: string): (toks: seq<Token>)
    ensures |toks| == |s|
    ensures forall i :: 0 <= i < |s| ==> toks[i] == Token(NAME, [s[i]])
  {
    if s == [] then [] else [Token(NAME, [s[0]])] + From(s[1..])
  }

  const Start := State(0, false)

  /** A failed sequence puts the stream back where it started. */
  lemma AndBacktracks(keepTag: bool)
    ensures Eval(And(Lit("a"), Lit("b")), From("ac"), Start, keepTag) == Res(Failure(true), Start)
  {
  }

  /** An alternative is tried from where the failed one started. */
  lemma OrFallsBack(keepTag: bool)
    ensures Eval(Or(Lit("a"), Lit("b")), From("b"), Start, keepTag) == Res(Success(Str("b")), State(1, false))
  {
  }

  lemma MaybeIsNoOp(keepTag: bool)
    ensures Eval(Maybe(Lit("a")), From("b"), Start, keepTag) == Res(Success(Null), Start)
  {
  }

  lemma ManyUntilMiss(keepTag: bool)
    ensures Eval(Many(Lit("a")), From("aab"), Start, keepTag)
         == Res(Success(Arr([Str("a"), Str("a")])), State(2, false))
  {
  }

  lemma SomeNeedsOne(keepTag: bool)
    ensures Eval(SomeOf(Lit("a")), From("b"), Start, keepTag) == Res(Failure(false), Start)
  {
  }

  function Pair(): Parser { And(Drop(Lit(",")), Lit("a")) }

  /** `, a` after the first item is taken as `a`, the separator dropped. */
  lemma JoinPairTaken(keepTag: bool)
    ensures Eval(Pair(), From("a,a,b"), State(1, false), keepTag) == Res(Success(Str("a")), State(3, false))
  {
  }

  /** `, b` fails after taking the separator, and the sequence puts it back. */
  lemma JoinPairGivenBack(keepTag: bool)
    ensures Eval(Pair(), From("a,a,b"), State(3, false), keepTag) == Res(Failure(true), State(3, false))
  {
    var toks := From("a,a,b");
    assert toks[3] == Token(NAME, ",") && toks[4] == Token(NAME, "b");
    TokenContract(NAME, Some(","), toks, State(3, false), keepTag);
    TokenContract(NAME, Some("a"), toks, State(4, false), keepTag);
  }

  /** The separators are dropped, and the trailing separator is given back. */
  lemma JoinDropsSeparators(keepTag: bool)
    ensures Eval(SepBy(Lit(","), Lit("a")), From("a,a,b"), Start, keepTag)
         == Res(Success(Arr([Str("a"), Str("a")])), State(3, false))
  {
    var toks := From("a,a,b");
    assert toks[0] == Token(NAME, "a");
    JoinPairTaken(keepTag);
    JoinPairGivenBack(keepTag);
    JoinOn(toks, keepTag);
  }

  /** An `a`, a pair that is taken up to offset 3, and one that is given back there: two items. */
  lemma JoinOn(toks: seq<Token>, keepTag: bool)
    requires |toks| == 5 && toks[0] == Token(NAME, "a")
    requires Eval(Pair(), toks, State(1, false), keepTag) == Res(Success(Str("a")), State(3, false))
    requires Eval(Pair(), toks, State(3, false), keepTag) == Res(Failure(true), State(3, false))
    ensures Eval(SepBy(Lit(","), Lit("a")), toks, Start, keepTag)
         == Res(Success(Arr([Str("a"), Str("a")])), State(3, false))
  {
    LitAt("a", toks, Start, keepTag);
    assert ManyLoop(Pair(), toks, State(3, false), [Str("a")], keepTag) == Res(Success(Arr([Str("a")])), State(3, false));
    assert [] + [Str("a")] == [Str("a")];
    assert ManyLoop(Pair(), toks, State(1, false), [], keepTag) == ManyLoop(Pair(), toks, State(3, false), [Str("a")], keepTag);
    assert Eval(Many(Pair()), toks, State(1, false), keepTag) == Res(Success(Arr([Str("a")])), State(3, false));
    assert SepBy(Lit(","), Lit("a")) == And(Lit("a"), Many(Pair()));
    assert MergeWith(Str("a"), Arr([Str("a")]), keepTag) == Arr([Str("a"), Str("a")]) by {
      assert MergeWith(Str("a"), Arr([Str("a")]), keepTag).items == [Str("a")] + [Str("a")];
    }
    assert Eval(And(Lit("a"), Many(Pair())), toks, Start, keepTag)
        == Res(Success(MergeWith(Str("a"), Arr([Str("a")]), keepTag)), State(3, false));
  }

  /** `with` does not consume its lookahead, so the next parse reads it. */
  lemma WithLooksAhead(keepTag: bool)
    ensures Eval(With(Lit("a"), Lit("b")), From("ab"), Start, keepTag) == Res(Success(Str("a")), State(1, false))
    ensures Eval(Lit("b"), From("ab"), State(1, false), keepTag) == Res(Success(Str("b")), State(2, false))
  {
  }

  lemma WithoutRejects(keepTag: bool)
    ensures Eval(Without(Lit("a"), Lit("b")), From("ab"), Start, keepTag) == Res(Failure(true), Start)
    ensures Eval(Without(Lit("a"), Lit("b")), From("ac"), Start, keepTag) == Res(Success(Str("a")), State(1, false))
  {
    var ab, ac := From("ab"), From("ac");
    assert ab[0] == Token(NAME, "a") && ab[1] == Token(NAME, "b");
    assert ac[0] == Token(NAME, "a") && ac[1] == Token(NAME, "c");
    WithoutOn(ab, keepTag);
    WithoutOn(ac, keepTag);
  }

  /** `a.without(b)` on an `a` and one more name: it fails, giving the `a` back, exactly when that name is `b`. */
  lemma WithoutOn(toks: seq<Token>, keepTag: bool)
    requires |toks| == 2 && toks[0] == Token(NAME, "a") && toks[1].kind == NAME
    ensures toks[1].text == "b" ==> Eval(Without(Lit("a"), Lit("b")), toks, Start, keepTag) == Res(Failure(true), Start)
    ensures toks[1].text != "b" ==>
      Eval(Without(Lit("a"), Lit("b")), toks, Start, keepTag) == Res(Success(Str("a")), State(1, false))
  {
    var s1 := State(1, false);
    LitAt("a", toks, Start, keepTag);
    LitAt("b", toks, s1, keepTag);
    if toks[1].text == "b" {
      assert Eval(Drop(NotAhead(Lit("b"))), toks, s1, keepTag) == Res(Failure(false), s1);
    } else {
      assert Eval(Drop(NotAhead(Lit("b"))), toks, s1, keepTag) == Res(Success(Dropped), s1);
    }
  }

  /** After a commit, a later failure in the same sequence is a syntax error. */
  lemma CommitSurfacesError(keepTag: bool)
    ensures Eval(Or(And(Commit(Lit("a")), Lit("b")), Lit("a")), From("ac"), Start, keepTag).out.Fatal?
  {
  }

  function CommittedAlternation(): Parser
  {
    Or(And(Commit(Lit("a")), Lit("b")), And(Commit(Lit("c")), Lit("d")))
  }

  lemma CommittedAlternationFirst(keepTag: bool)
    ensures Eval(CommittedAlternation(), From("ab"), Start, keepTag).out.Success?
  {
  }

  lemma CommittedAlternationSecond(keepTag: bool)
    ensures Eval(CommittedAlternation(), From("cd"), Start, keepTag).out.Success?
  {
  }

  /** Once `a` is committed, a missing `b` is an error rather than a cue to try `c d`. */
  lemma CommittedAlternationError(keepTag: bool)
    ensures Eval(CommittedAlternation(), From("ad"), Start, keepTag).out.Fatal?
  {
  }

  /** `a ~ (b c | d) | e (f ~ g | h) i | j`, with `Parser.or` and `Parser.and` folded from the left. */
  function Nested(): Parser
  {
    Or(Or(NestedA(), NestedE()), Lit("j"))
  }

  /** `a ~ (b c | d)` */
  function NestedA(): Parser
  {
    And(Commit(Lit("a")), Or(And(Lit("b"), Lit("c")), Lit("d")))
  }

  /** `e (f ~ g | h) i` */
  function NestedE(): Parser
  {
    And(And(Lit("e"), Or(And(Commit(Lit("f")), Lit("g")), Lit("h"))), Lit("i"))
  }

  /** A one-letter name parser on a stream of name tokens. */
  lemma LitAt(x: string, toks: seq<Token>, st: State, keepTag: bool)
    requires x != []
    requires st.offset < |toks| ==> toks[st.offset].kind == NAME
    ensures st.offset < |toks| && toks[st.offset].text == x ==>
      Eval(Lit(x), toks, st, keepTag) == Res(Success(Str(x)), Took(st))
    ensures st.offset >= |toks| || toks[st.offset].text != x ==>
      Eval(Lit(x), toks, st, keepTag) == Res(Failure(false), st)
  {
    TokenContract(NAME, Some(x), toks, st, keepTag);
  }

  /** Without an `a` in front, `a ~ (b c | d)` fails without matching. */
  lemma NestedAMisses(toks: seq<Token>, keepTag: bool)
    requires |toks| > 0 && toks[0].kind == NAME && toks[0].text != "a"
    ensures Eval(NestedA(), toks, Start, keepTag) == Res(Failure(false), Start)
  {
    LitAt("a", toks, Start, keepTag);
    assert Eval(Commit(Lit("a")), toks, Start, keepTag) == Res(Failure(false), Start);
  }

  lemma NestedAccepts(keepTag: bool)
    ensures Eval(Nested(), From("abc"), Start, keepTag).out.Success?
    ensures Eval(Nested(), From("ad"), Start, keepTag).out.Success?
  {
    var toks := From("abc");
    assert toks[0] == Token(NAME, "a") && toks[1] == Token(NAME, "b") && toks[2] == Token(NAME, "c");
    NestedTakesAbc(toks, keepTag);
    var toks2 := From("ad");
    assert toks2[0] == Token(NAME, "a") && toks2[1] == Token(NAME, "d");
    NestedTakesAd(toks2, keepTag);
  }

  /** `a b c` as tokens: the committed `a`, then `b c`. */
  lemma NestedTakesAbc(toks: seq<Token>, keepTag: bool)
    requires |toks| == 3 && toks[0] == Token(NAME, "a") && toks[1] == Token(NAME, "b") && toks[2] == Token(NAME, "c")
    ensures Eval(Nested(), toks, Start, keepTag).out.Success?
  {
    var s1 := State(1, true);
    LitAt("a", toks, Start, keepTag);
    assert Eval(Commit(Lit("a")), toks, Start, keepTag) == Res(Success(Str("a")), s1);
    LitAt("b", toks, s1, keepTag);
    LitAt("c", toks, State(2, true), keepTag);
    assert Eval(And(Lit("b"), Lit("c")), toks, s1, keepTag).out.Success?;
    assert Eval(Or(And(Lit("b"), Lit("c")), Lit("d")), toks, s1, keepTag).out.Success?;
    assert Eval(NestedA(), toks, Start, keepTag).out.Success?;
    assert Eval(Or(NestedA(), NestedE()), toks, Start, keepTag).out.Success?;
  }

  /** `a d` as tokens: the committed `a`, then `b c` fails unmatched and `d` is taken. */
  lemma NestedTakesAd(toks: seq<Token>, keepTag: bool)
    requires |toks| == 2 && toks[0] == Token(NAME, "a") && toks[1] == Token(NAME, "d")
    ensures Eval(Nested(), toks, Start, keepTag).out.Success?
  {
    var s1 := State(1, true);
    LitAt("a", toks, Start, keepTag);
    assert Eval(Commit(Lit("a")), toks, Start, keepTag) == Res(Success(Str("a")), s1);
    LitAt("b", toks, s1, keepTag);
    LitAt("d", toks, s1, keepTag);
    assert Eval(And(Lit("b"), Lit("c")), toks, s1, keepTag) == Res(Failure(false), s1);
    assert Eval(Or(And(Lit("b"), Lit("c")), Lit("d")), toks, s1, keepTag).out.Success?;
    assert Eval(NestedA(), toks, Start, keepTag).out.Success?;
    assert Eval(Or(NestedA(), NestedE()), toks, Start, keepTag).out.Success?;
  }

  lemma NestedAcceptsEfgi(keepTag: bool)
    ensures Eval(Nested(), From("efgi"), Start, keepTag).out.Success?
  {
    var toks := From("efgi");
    assert toks[0] == Token(NAME, "e") && toks[1] == Token(NAME, "f");
    assert toks[2] == Token(NAME, "g") && toks[3] == Token(NAME, "i");
    NestedTakesEfgi(toks, keepTag);
  }

  /** `e f g i` as tokens: the second alternative takes all four. */
  lemma NestedTakesEfgi(toks: seq<Token>, keepTag: bool)
    requires |toks| == 4 && toks[0] == Token(NAME, "e") && toks[1] == Token(NAME, "f")
    requires toks[2] == Token(NAME, "g") && toks[3] == Token(NAME, "i")
    ensures Eval(Nested(), toks, Start, keepTag).out.Success?
  {
    LitAt("e", toks, Start, keepTag);
    LitAt("i", toks, State(3, true), keepTag);
    NestedAMisses(toks, keepTag);
    NestedFgTakes(toks, keepTag);
    var front := Eval(And(Lit("e"), Or(And(Commit(Lit("f")), Lit("g")), Lit("h"))), toks, Start, keepTag);
    assert front.out.Success? && front.st == State(3, true);
    assert Eval(NestedE(), toks, Start, keepTag).out.Success?;
    assert Eval(Or(NestedA(), NestedE()), toks, Start, keepTag).out.Success?;
  }

  /** With `f g` next, the committed branch of `(f ~ g | h)` takes both and the stream is eager. */
  lemma NestedFgTakes(toks: seq<Token>, keepTag: bool)
    requires |toks| > 2 && toks[1] == Token(NAME, "f") && toks[2] == Token(NAME, "g")
    ensures var r := Eval(Or(And(Commit(Lit("f")), Lit("g")), Lit("h")), toks, State(1, false), keepTag);
      r.out.Success? && r.st == State(3, true)
  {
    LitAt("f", toks, State(1, false), keepTag);
    assert Eval(Commit(Lit("f")), toks, State(1, false), keepTag) == Res(Success(Str("f")), State(2, true));
    LitAt("g", toks, State(2, true), keepTag);
    assert Eval(And(Commit(Lit("f")), Lit("g")), toks, State(1, false), keepTag) == Res(Success(MergeWith(Str("f"), Str("g"), keepTag)), State(3, true));
  }

  lemma NestedAcceptsEhi(keepTag: bool)
    ensures Eval(Nested(), From("ehi"), Start, keepTag).out.Success?
  {
    var toks := From("ehi");
    assert toks[0] == Token(NAME, "e") && toks[1] == Token(NAME, "h") && toks[2] == Token(NAME, "i");
    NestedTakesEhi(toks, keepTag);
  }

  /** `e h i` as tokens: `f` fails unmatched, so `h` is taken and then `i`. */
  lemma NestedTakesEhi(toks: seq<Token>, keepTag: bool)
    requires |toks| == 3 && toks[0] == Token(NAME, "e") && toks[1] == Token(NAME, "h") && toks[2] == Token(NAME, "i")
    ensures Eval(Nested(), toks, Start, keepTag).out.Success?
  {
    var s1 := State(1, false);
    NestedAMisses(toks, keepTag);
    LitAt("e", toks, Start, keepTag);
    LitAt("f", toks, s1, keepTag);
    assert Eval(And(Commit(Lit("f")), Lit("g")), toks, s1, keepTag) == Res(Failure(false), s1);
    LitAt("h", toks, s1, keepTag);
    assert Eval(Or(And(Commit(Lit("f")), Lit("g")), Lit("h")), toks, s1, keepTag) == Res(Success(Str("h")), State(2, false));
    LitAt("i", toks, State(2, false), keepTag);
    assert Eval(NestedE(), toks, Start, keepTag).out.Success?;
  }

  lemma NestedAcceptsJ(keepTag: bool)
    ensures Eval(Nested(), From("j"), Start, keepTag).out.Success?
  {
    var toks := From("j");
    assert toks[0] == Token(NAME, "j");
    NestedAMisses(toks, keepTag);
    LitAt("e", toks, Start, keepTag);
    assert Eval(And(Lit("e"), Or(And(Commit(Lit("f")), Lit("g")), Lit("h"))), toks, Start, keepTag) == Res(Failure(false), Start);
    assert Eval(NestedE(), toks, Start, keepTag) == Res(Failure(false), Start);
    LitAt("j", toks, Start, keepTag);
  }

  /** After the committed `a`, neither branch of `(b c | d)` completing is an error. */
  lemma NestedRejectsAbd(keepTag: bool)
    ensures Eval(Nested(), From("abd"), Start, keepTag).out.Fatal?
  {
    var toks := From("abd");
    assert toks[0] == Token(NAME, "a") && toks[1] == Token(NAME, "b") && toks[2] == Token(NAME, "d");
    NestedFailsAbd(toks, keepTag);
  }

  /** `a b d` as tokens: after the committed `a` and the `b`, the missing `c` is an error. */
  lemma NestedFailsAbd(toks: seq<Token>, keepTag: bool)
    requires |toks| == 3 && toks[0] == Token(NAME, "a") && toks[1] == Token(NAME, "b") && toks[2] == Token(NAME, "d")
    ensures Eval(Nested(), toks, Start, keepTag).out.Fatal?
  {
    var s1 := State(1, true);
    LitAt("a", toks, Start, keepTag);
    assert Eval(Commit(Lit("a")), toks, Start, keepTag) == Res(Success(Str("a")), s1);
    LitAt("b", toks, s1, keepTag);
    LitAt("c", toks, State(2, true), keepTag);
    assert Eval(And(Lit("b"), Lit("c")), toks, s1, keepTag).out.Fatal?;
    assert Eval(NestedA(), toks, Start, keepTag).out.Fatal?;
  }

  lemma NestedRejectsAb(keepTag: bool)
    ensures Eval(Nested(), From("ab"), Start, keepTag).out.Fatal?
  {
    var toks := From("ab");
    assert toks[0] == Token(NAME, "a") && toks[1] == Token(NAME, "b");
    NestedFailsAb(toks, keepTag);
  }

  /** `a b` as tokens: after the committed `a` and the `b`, the end is an error. */
  lemma NestedFailsAb(toks: seq<Token>, keepTag: bool)
    requires |toks| == 2 && toks[0] == Token(NAME, "a") && toks[1] == Token(NAME, "b")
    ensures Eval(Nested(), toks, Start, keepTag).out.Fatal?
  {
    var s1 := State(1, true);
    LitAt("a", toks, Start, keepTag);
    assert Eval(Commit(Lit("a")), toks, Start, keepTag) == Res(Success(Str("a")), s1);
    LitAt("b", toks, s1, keepTag);
    LitAt("c", toks, State(2, true), keepTag);
    assert Eval(And(Lit("b"), Lit("c")), toks, s1, keepTag).out.Fatal?;
    assert Eval(NestedA(), toks, Start, keepTag).out.Fatal?;
  }

  lemma NestedRejectsAe(keepTag: bool)
    ensures Eval(Nested(), From("ae"), Start, keepTag).out.Fatal?
  {
    var toks := From("ae");
    assert toks[0] == Token(NAME, "a") && toks[1] == Token(NAME, "e");
    NestedFailsAe(toks, keepTag);
  }

  /** `a e` as tokens: after the committed `a`, neither `b` nor `d` follows. */
  lemma NestedFailsAe(toks: seq<Token>, keepTag: bool)
    requires |toks| == 2 && toks[0] == Token(NAME, "a") && toks[1] == Token(NAME, "e")
    ensures Eval(Nested(), toks, Start, keepTag).out.Fatal?
  {
    var s1 := State(1, true);
    LitAt("a", toks, Start, keepTag);
    assert Eval(Commit(Lit("a")), toks, Start, keepTag) == Res(Success(Str("a")), s1);
    LitAt("b", toks, s1, keepTag);
    LitAt("d", toks, s1, keepTag);
    assert Eval(And(Lit("b"), Lit("c")), toks, s1, keepTag) == Res(Failure(false), s1);
    assert Eval(Or(And(Lit("b"), Lit("c")), Lit("d")), toks, s1, keepTag) == Res(Failure(false), s1);
    assert Eval(NestedA(), toks, Start, keepTag).out.Fatal?;
  }

  /** After the committed `f`, a missing `g` is an error even though `h i` was another way on. */
  lemma NestedRejectsEfi(keepTag: bool)
    ensures Eval(Nested(), From("efi"), Start, keepTag).out.Fatal?
  {
    var toks := From("efi");
    assert toks[0] == Token(NAME, "e") && toks[1] == Token(NAME, "f") && toks[2] == Token(NAME, "i");
    NestedFailsEfi(toks, keepTag);
  }

  /** `e f i` as tokens: after the committed `f`, the missing `g` is an error. */
  lemma NestedFailsEfi(toks: seq<Token>, keepTag: bool)
    requires |toks| == 3 && toks[0] == Token(NAME, "e") && toks[1] == Token(NAME, "f") && toks[2] == Token(NAME, "i")
    ensures Eval(Nested(), toks, Start, keepTag).out.Fatal?
  {
    NestedAMisses(toks, keepTag);
    LitAt("e", toks, Start, keepTag);
    LitAt("f", toks, State(1, false), keepTag);
    assert Eval(Commit(Lit("f")), toks, State(1, false), keepTag) == Res(Success(Str("f")), State(2, true));
    LitAt("g", toks, State(2, true), keepTag);
    assert Eval(And(Commit(Lit("f")), Lit("g")), toks, State(1, false), keepTag).out.Fatal?;
    assert Eval(Or(And(Commit(Lit("f")), Lit("g")), Lit("h")), toks, State(1, false), keepTag).out.Fatal?;
    assert Eval(And(Lit("e"), Or(And(Commit(Lit("f")), Lit("g")), Lit("h"))), toks, Start, keepTag).out.Fatal?;
    assert Eval(NestedE(), toks, Start, keepTag).out.Fatal?;
  }
}
