/**
 * Properties of the token-only combinators and the behaviours their tests describe.
 */
module CombinatorsLaws {
  import opened Wrappers
  import opened Tokenizer
  import opened Strings
  import opened Merging
  import opened Base
  import opened Combinators

  /**
   * `token(type)` takes the next token exactly when it has that type and is not the
   * end marker; the end marker itself can never be taken.
   */
  lemma TokenContract(kind: TokenType, toks: seq<Tokenizer.Token>, st: State)
    requires Ready(toks, st)
    ensures var r := Combinators.Eval(Combinators.Token(kind), toks, st);
      var t := toks[st.offset];
      if t.kind == kind && kind != ENDMARKER
      then r == Res(Success(Tok(t)), st.(offset := st.offset + 1))
      else r == Res(Failure(false), st)
  {
  }

  /** `then` keeps both values as one flat list; the other two keep one side. */
  lemma SeqValues(a: Combinators.Parser, b: Combinators.Parser, keep: Keep, toks: seq<Tokenizer.Token>, st: State)
    requires Ready(toks, st)
    ensures var r := Combinators.Eval(Seq(a, b, keep), toks, st);
      var r1 := Combinators.Eval(a, toks, st);
      r.out.Success? ==>
        && r1.out.Success?
        && var r2 := Combinators.Eval(b, toks, r1.st);
        && r2.out.Success? && r.st == r2.st
        && (keep == Both ==> r.out.value.items == Contribution(r1.out.value) + Contribution(r2.out.value))
        && (keep == Left ==> r.out.value == r1.out.value)
        && (keep == Right ==> r.out.value == r2.out.value)
  {
    var r := Combinators.Eval(Seq(a, b, keep), toks, st);
    var r1 := Combinators.Eval(a, toks, st);
    if r.out.Success? && keep == Both {
      var r2 := Combinators.Eval(b, toks, r1.st);
      var c := Concat(r1.out.value, r2.out.value);
      assert c.items == c.items[..Width(r1.out.value)] + c.items[Width(r1.out.value)..];
    }
  }

  /**
   * Every failure leaves the offset where it was: this library has no `if`, and
   * each combinator either restores the offset or passes on a failure that did.
   */
  lemma {:induction false} FailureRestoresOffset(p: Combinators.Parser, toks: seq<Tokenizer.Token>, st: State)
    requires Ready(toks, st)
    ensures var r := Combinators.Eval(p, toks, st);
      r.out.Failure? ==> r.st.offset == st.offset
  {
    match p
    case Token(_) =>
    case Literal(_) =>
    case Or(a, b) =>
      var r := Combinators.Eval(a, toks, st);
      FailureRestoresOffset(a, toks, st);
      if r.out.Failure? {
        FailureRestoresOffset(b, toks, r.st);
      }
    case Seq(_, _, _) =>
    case Maybe(_) =>
    case Many(_) =>
    case Commit(q) => FailureRestoresOffset(q, toks, st);
    case Ahead(q) =>
    case NotAhead(_) =>
  }

  /** `many` never fails; a success holds every value collected, in order. */
  lemma ManyNeverFails(q: Combinators.Parser, toks: seq<Tokenizer.Token>, st: State)
    requires Ready(toks, st)
    ensures var r := Combinators.Eval(Combinators.Many(q), toks, st);
      !r.out.Failure? && (r.out.Success? ==> r.out.value.Arr?)
  {
  }

  /** `some` fails, without matching input, exactly when its parser fails without matching. */
  lemma SomeNeedsOne(q: Combinators.Parser, toks: seq<Tokenizer.Token>, st: State)
    requires Ready(toks, st)
    requires Combinators.Eval(q, toks, st).out.Failure?
    ensures var r := Combinators.Eval(Combinators.SomeOf(q), toks, st);
      var inner := Combinators.Eval(q, toks, st);
      && (!(inner.st.eager && inner.out.matched) ==> r.out == Failure(inner.out.matched) && r.st.offset == st.offset)
      && (inner.st.eager && inner.out.matched ==> r.out.Fatal?)
  {
  }

  // ---- the tests, over the tokens the tokenizer produces for their inputs ----

  /** One name token per character, then the end marker: the tokens of the letters separated by spaces. */
  function Letters(s: string): (toks: seq<Tokenizer.Token>)
    ensures |toks| == |s| + 1 && toks[|s|] == EndToken
    ensures forall i :: 0 <= i < |s| ==> toks[i] == Tokenizer.Token(NAME, [s[i]])
  {
    if s == [] then [EndToken] else [Tokenizer.Token(NAME, [s[0]])] + Letters(s[1..])
  }

  const Start := State(0, false)

  /** The letters of `s` with one space between each two: the text of a letters test. */
  function Spaced(s: string): (t: string)
    ensures |t| == if s == [] then 0 else 2 * |s| - 1
  {
    if |s| <= 1 then s else [s[0], ' '] + Spaced(s[1..])
  }

  /** The `k`-th letter sits at `2 * k`, followed by a space unless it is the last. */
  lemma {:induction false} SpacedLetter(s: string, k: nat)
    requires k < |s|
    ensures var c := Spaced(s);
      2 * k < |c| && c[2 * k] == s[k] && (2 * k + 1 < |c| ==> c[2 * k + 1] == ' ')
  {
    if k > 0 {
      SpacedLetter(s[1..], k - 1);
      var c := Spaced(s);
      assert c == [s[0], ' '] + Spaced(s[1..]);
      assert c[2 * k] == Spaced(s[1..])[2 * (k - 1)];
      assert 2 * k + 1 < |c| ==> c[2 * k + 1] == Spaced(s[1..])[2 * (k - 1) + 1];
    }
  }

  /** Text `c` holds the letters of `s` at the even positions, each followed by a space or the end. */
  ghost predicate SpacedLetters(s: string, c: string)
  {
    && |c| <= 2 * |s|
    && forall j :: 0 <= j < |s| ==>
         2 * j < |c| && c[2 * j] == s[j] && IsNameStart(s[j]) && (2 * j + 1 < |c| ==> c[2 * j + 1] == ' ')
  }

  /** From the `k`-th letter on, such a text tokenizes to the letters' name tokens and the end marker. */
  lemma {:induction false} LexSpacedFrom(s: string, c: string, k: nat)
    requires SpacedLetters(s, c)
    requires k <= |s|
    ensures LexFrom(c, 2 * k) == Ok(Letters(s[k..]))
    decreases |s| - k
  {
    if k < |s| {
      LexSpacedFrom(s, c, k + 1);
      assert 2 * (k + 1) == 2 * k + 2;
      LexLetter(c, 2 * k);
      LettersFrom(s, k);
    } else {
      assert s[k..] == [];
    }
  }

  /** The tokens of the letters from the `k`-th on: its name token, then those from the next. */
  lemma LettersFrom(s: string, k: nat)
    requires k < |s|
    ensures Letters(s[k..]) == [Tokenizer.Token(NAME, [s[k]])] + Letters(s[k + 1..])
  {
    assert s[k..][1..] == s[k + 1..];
  }

  /** A text with the letters of `s` spaced out tokenizes to one name token per letter, then the end marker. */
  lemma {:induction false} LexSpacedText(s: string, c: string)
    requires SpacedLetters(s, c)
    ensures Lex(c) == Ok(Letters(s))
  {
    LexSpacedFrom(s, c, 0);
    assert s[0..] == s;
  }

  /** Letters separated by single spaces tokenize to one name token each, then the end marker. */
  lemma {:induction false} LexSpaced(s: string)
    requires forall j :: 0 <= j < |s| ==> IsNameStart(s[j])
    ensures Lex(Spaced(s)) == Ok(Letters(s))
  {
    var c := Spaced(s);
    forall j | 0 <= j < |s|
      ensures 2 * j < |c| && c[2 * j] == s[j] && (2 * j + 1 < |c| ==> c[2 * j + 1] == ' ')
    {
      SpacedLetter(s, j);
    }
    LexSpacedText(s, c);
  }

  /** A name alone. */
  lemma LexOneName(c: string)
    requires 0 < |c| && IsNameStart(c[0])
    requires forall k :: 0 < k < |c| ==> IsNameChar(c[k])
    ensures Lex(c) == Ok([Tokenizer.Token(NAME, c), EndToken])
  {
    LexName(c, 0, |c|);
    assert LexFrom(c, |c|) == Ok([EndToken]);
    assert c[0..|c|] == c;
    assert [Tokenizer.Token(NAME, c)] + [EndToken] == [Tokenizer.Token(NAME, c), EndToken];
  }

  /** A name, a blank, a name. */
  lemma LexTwoNames(c: string, e: nat)
    requires 0 < e && e + 1 < |c| && IsNameStart(c[0]) && IsBlank(c[e]) && IsNameStart(c[e + 1])
    requires forall k :: 0 < k < e ==> IsNameChar(c[k])
    requires forall k :: e + 1 < k < |c| ==> IsNameChar(c[k])
    ensures Lex(c) == Ok([Tokenizer.Token(NAME, c[..e]), Tokenizer.Token(NAME, c[e + 1..]), EndToken])
  {
    LexName(c, e + 1, |c|);
    assert LexFrom(c, |c|) == Ok([EndToken]);
    assert c[e + 1..|c|] == c[e + 1..];
    assert [Tokenizer.Token(NAME, c[e + 1..])] + [EndToken] == [Tokenizer.Token(NAME, c[e + 1..]), EndToken];
    assert LexFrom(c, e + 1) == Ok([Tokenizer.Token(NAME, c[e + 1..]), EndToken]);
    LexSkipsBlank(c, e);
    assert !IsNameChar(c[e]);
    LexName(c, 0, e);
    assert c[0..e] == c[..e];
    assert [Tokenizer.Token(NAME, c[..e])] + [Tokenizer.Token(NAME, c[e + 1..]), EndToken]
        == [Tokenizer.Token(NAME, c[..e]), Tokenizer.Token(NAME, c[e + 1..]), EndToken];
    assert LexFrom(c, 0) == Ok([Tokenizer.Token(NAME, c[..e]), Tokenizer.Token(NAME, c[e + 1..]), EndToken]);
  }

  /** A name, then a comma. */
  lemma LexNameComma(c: string)
    requires 1 < |c| && IsNameStart(c[0]) && c[|c| - 1] == ','
    requires forall k :: 0 < k < |c| - 1 ==> IsNameChar(c[k])
    ensures Lex(c) == Ok([Tokenizer.Token(NAME, c[..|c| - 1]), Tokenizer.Token(OP, ","), EndToken])
  {
    var e := |c| - 1;
    LexComma(c, e);
    assert LexFrom(c, |c|) == Ok([EndToken]);
    assert [Tokenizer.Token(OP, ",")] + [EndToken] == [Tokenizer.Token(OP, ","), EndToken];
    assert LexFrom(c, e) == Ok([Tokenizer.Token(OP, ","), EndToken]);
    LexName(c, 0, e);
    assert c[0..e] == c[..e];
    assert [Tokenizer.Token(NAME, c[..e])] + [Tokenizer.Token(OP, ","), EndToken]
        == [Tokenizer.Token(NAME, c[..e]), Tokenizer.Token(OP, ","), EndToken];
    assert LexFrom(c, 0) == Ok([Tokenizer.Token(NAME, c[..e]), Tokenizer.Token(OP, ","), EndToken]);
  }

  /** A comma, then a one-letter name ending at a comma or the end. */
  lemma LexCommaLetter(c: string, i: nat, rest: seq<Tokenizer.Token>)
    requires i + 1 < |c| && c[i] == ',' && IsNameStart(c[i + 1])
    requires i + 2 == |c| || c[i + 2] == ','
    requires LexFrom(c, i + 2) == Ok(rest)
    ensures LexFrom(c, i) == Ok([Tokenizer.Token(OP, ","), Tokenizer.Token(NAME, [c[i + 1]])] + rest)
  {
    var name := Tokenizer.Token(NAME, [c[i + 1]]);
    assert c[i + 1..i + 2] == [c[i + 1]];
    assert i + 2 < |c| ==> !IsNameChar(c[i + 2]);
    LexName(c, i + 1, i + 2);
    assert LexFrom(c, i + 1) == Ok([name] + rest);
    LexComma(c, i);
    assert LexFrom(c, i) == Ok([Tokenizer.Token(OP, ",")] + ([name] + rest));
    assert [Tokenizer.Token(OP, ",")] + ([name] + rest) == [Tokenizer.Token(OP, ","), name] + rest;
  }

  /** After the first letter of three separated by commas: the two comma-letter pairs, then the end marker. */
  lemma LexCommaLettersTail(c: string)
    requires |c| == 5 && IsNameStart(c[2]) && IsNameStart(c[4])
    requires c[1] == ',' && c[3] == ','
    ensures LexFrom(c, 1)
        == Ok([Tokenizer.Token(OP, ","), Tokenizer.Token(NAME, [c[2]]), Tokenizer.Token(OP, ","),
               Tokenizer.Token(NAME, [c[4]]), EndToken])
  {
    var n2, n4 := Tokenizer.Token(NAME, [c[2]]), Tokenizer.Token(NAME, [c[4]]);
    var comma := Tokenizer.Token(OP, ",");
    assert LexFrom(c, 5) == Ok([EndToken]);
    LexCommaLetter(c, 3, [EndToken]);
    assert [comma, n4] + [EndToken] == [comma, n4, EndToken];
    LexCommaLetter(c, 1, [comma, n4, EndToken]);
    assert [comma, n2] + [comma, n4, EndToken] == [comma, n2, comma, n4, EndToken];
  }

  /** Three one-letter names separated by commas. */
  lemma LexCommaLetters(c: string)
    requires |c| == 5 && IsNameStart(c[0]) && IsNameStart(c[2]) && IsNameStart(c[4])
    requires c[1] == ',' && c[3] == ','
    ensures Lex(c)
        == Ok([Tokenizer.Token(NAME, [c[0]]), Tokenizer.Token(OP, ","), Tokenizer.Token(NAME, [c[2]]),
               Tokenizer.Token(OP, ","), Tokenizer.Token(NAME, [c[4]]), EndToken])
  {
    var tail := [Tokenizer.Token(OP, ","), Tokenizer.Token(NAME, [c[2]]), Tokenizer.Token(OP, ","),
                 Tokenizer.Token(NAME, [c[4]]), EndToken];
    LexCommaLettersTail(c);
    assert c[0..1] == [c[0]] && !IsNameChar(c[1]);
    LexName(c, 0, 1);
    assert [Tokenizer.Token(NAME, [c[0]])] + tail
        == [Tokenizer.Token(NAME, [c[0]]), Tokenizer.Token(OP, ","), Tokenizer.Token(NAME, [c[2]]),
            Tokenizer.Token(OP, ","), Tokenizer.Token(NAME, [c[4]]), EndToken];
    assert LexFrom(c, 0) == Ok([Tokenizer.Token(NAME, [c[0]])] + tail);
  }

  /** Two one-digit numbers, then a name, separated by blanks. */
  lemma LexDigitsThenName(c: string)
    requires 4 < |c| && IsDigit(c[0]) && IsBlank(c[1]) && IsDigit(c[2]) && IsBlank(c[3]) && IsNameStart(c[4])
    requires forall k :: 4 < k < |c| ==> IsNameChar(c[k])
    ensures Lex(c)
        == Ok([Tokenizer.Token(NUMBER, [c[0]]), Tokenizer.Token(NUMBER, [c[2]]), Tokenizer.Token(NAME, c[4..]),
               EndToken])
  {
    var d0, d2, name := Tokenizer.Token(NUMBER, [c[0]]), Tokenizer.Token(NUMBER, [c[2]]), Tokenizer.Token(NAME, c[4..]);
    assert c[0..1] == [c[0]] && c[2..3] == [c[2]] && c[4..|c|] == c[4..];
    assert LexFrom(c, |c|) == Ok([EndToken]);
    LexName(c, 4, |c|);
    assert [name] + [EndToken] == [name, EndToken];
    assert LexFrom(c, 4) == Ok([name, EndToken]);
    LexSkipsBlank(c, 3);
    assert !IsDigit(c[3]);
    LexNumber(c, 2, 3);
    assert [d2] + [name, EndToken] == [d2, name, EndToken];
    assert LexFrom(c, 2) == Ok([d2, name, EndToken]);
    LexSkipsBlank(c, 1);
    assert !IsDigit(c[1]);
    LexNumber(c, 0, 1);
    assert [d0] + [d2, name, EndToken] == [d0, d2, name, EndToken];
    assert LexFrom(c, 0) == Ok([d0, d2, name, EndToken]);
  }

  /** The tokens of `"alpha beta"`. */
  lemma LexAlphaBeta()
    ensures Lex("alpha beta") == Ok([Tokenizer.Token(NAME, "alpha"), Tokenizer.Token(NAME, "beta"), EndToken])
  {
    var text := "alpha beta";
    assert text[..5] == "alpha" && text[6..] == "beta";
    LexTwoNames(text, 5);
  }

  /** The tokens of `"foo"`. */
  lemma LexFoo()
    ensures Lex("foo") == Ok([Tokenizer.Token(NAME, "foo"), EndToken])
  {
    LexOneName("foo");
  }

  /** The tokens of `"1 2 foo"`. */
  lemma LexOneTwoFoo()
    ensures Lex("1 2 foo")
        == Ok([Tokenizer.Token(NUMBER, "1"), Tokenizer.Token(NUMBER, "2"), Tokenizer.Token(NAME, "foo"), EndToken])
  {
    var text := "1 2 foo";
    assert text[4..] == "foo" && [text[0]] == "1" && [text[2]] == "2";
    LexDigitsThenName(text);
  }

  /** The tokens of `"a,b,c"`. */
  lemma LexCommaABC()
    ensures Lex("a,b,c")
        == Ok([Tokenizer.Token(NAME, "a"), Tokenizer.Token(OP, ","), Tokenizer.Token(NAME, "b"),
               Tokenizer.Token(OP, ","), Tokenizer.Token(NAME, "c"), EndToken])
  {
    LexCommaLetters("a,b,c");
  }

  /** The tokens of `"foo,"`. */
  lemma LexFooComma()
    ensures Lex("foo,") == Ok([Tokenizer.Token(NAME, "foo"), Tokenizer.Token(OP, ","), EndToken])
  {
    var text := "foo,";
    assert text[..3] == "foo";
    LexNameComma(text);
  }

  /** The tokens of `"foo bar"`. */
  lemma LexFooBar()
    ensures Lex("foo bar") == Ok([Tokenizer.Token(NAME, "foo"), Tokenizer.Token(NAME, "bar"), EndToken])
  {
    var text := "foo bar";
    assert text[..3] == "foo" && text[4..] == "bar";
    LexTwoNames(text, 3);
  }

  const NameP := Combinators.Token(NAME)
  const NumberP := Combinators.Token(NUMBER)
  const OpP := Combinators.Token(OP)

  /** On the tokens of `"alpha beta"`. */
  lemma ThenBacktracksTokens()
    ensures var toks := [Tokenizer.Token(NAME, "alpha"), Tokenizer.Token(NAME, "beta"), EndToken];
      Combinators.Eval(Then(NameP, NumberP), toks, Start) == Res(Failure(true), Start)
  {
  }

  /** `"alpha beta"`: a name then a number fails and gives the name back. */
  lemma ThenBacktracks()
    ensures Lex("alpha beta") == Ok([Tokenizer.Token(NAME, "alpha"), Tokenizer.Token(NAME, "beta"), EndToken])
    ensures var toks := [Tokenizer.Token(NAME, "alpha"), Tokenizer.Token(NAME, "beta"), EndToken];
      Combinators.Eval(Then(NameP, NumberP), toks, Start) == Res(Failure(true), Start)
  {
    LexAlphaBeta();
    ThenBacktracksTokens();
  }

  /** On the tokens of `"foo"`. */
  lemma OrFallsBackTokens()
    ensures var toks := [Tokenizer.Token(NAME, "foo"), EndToken];
      Combinators.Eval(Combinators.Or(NumberP, NameP), toks, Start)
        == Res(Success(Tok(Tokenizer.Token(NAME, "foo"))), State(1, false))
  {
  }

  /** `"foo"`: a number or a name takes the name. */
  lemma OrFallsBack()
    ensures Lex("foo") == Ok([Tokenizer.Token(NAME, "foo"), EndToken])
    ensures var toks := [Tokenizer.Token(NAME, "foo"), EndToken];
      Combinators.Eval(Combinators.Or(NumberP, NameP), toks, Start)
        == Res(Success(Tok(Tokenizer.Token(NAME, "foo"))), State(1, false))
  {
    LexFoo();
    OrFallsBackTokens();
  }

  /** On the tokens of `"1 2 foo"`. */
  lemma ManyUntilMissTokens()
    ensures var toks := [Tokenizer.Token(NUMBER, "1"), Tokenizer.Token(NUMBER, "2"), Tokenizer.Token(NAME,
                         "foo"), EndToken];
      Combinators.Eval(Combinators.Many(NumberP), toks, Start)
        == Res(Success(Arr([Tok(Tokenizer.Token(NUMBER, "1")), Tok(Tokenizer.Token(NUMBER, "2"))])), State(2, false))
  {
    var toks := [Tokenizer.Token(NUMBER, "1"), Tokenizer.Token(NUMBER, "2"), Tokenizer.Token(NAME, "foo"), EndToken];
    var one := Tok(Tokenizer.Token(NUMBER, "1"));
    var two := Tok(Tokenizer.Token(NUMBER, "2"));
    assert Combinators.Eval(NumberP, toks, State(0, false)) == Res(Success(one), State(1, false));
    assert Combinators.Eval(NumberP, toks, State(1, false)) == Res(Success(two), State(2, false));
    assert Combinators.Eval(NumberP, toks, State(2, false)) == Res(Failure(false), State(2, false));
    assert [] + [one] == [one];
    assert Combinators.ManyLoop(NumberP, toks, State(2, false), [one, two])
        == Res(Success(Arr([one, two])), State(2, false));
    assert Combinators.ManyLoop(NumberP, toks, State(1, false), [one])
        == Res(Success(Arr([one, two])), State(2, false));
  }

  /** `"1 2 foo"`: `many` collects the two numbers and stops before the name. */
  lemma ManyUntilMiss()
    ensures Lex("1 2 foo")
        == Ok([Tokenizer.Token(NUMBER, "1"), Tokenizer.Token(NUMBER, "2"), Tokenizer.Token(NAME, "foo"), EndToken])
    ensures var toks := [Tokenizer.Token(NUMBER, "1"), Tokenizer.Token(NUMBER, "2"), Tokenizer.Token(NAME,
                         "foo"), EndToken];
      Combinators.Eval(Combinators.Many(NumberP), toks, Start)
        == Res(Success(Arr([Tok(Tokenizer.Token(NUMBER, "1")), Tok(Tokenizer.Token(NUMBER, "2"))])), State(2, false))
  {
    LexOneTwoFoo();
    ManyUntilMissTokens();
  }

  /** On the tokens of `"a,b,c"`. */
  lemma JoinDropsSeparatorsTokens()
    ensures var toks := [Tokenizer.Token(NAME, "a"), Tokenizer.Token(OP, ","), Tokenizer.Token(NAME, "b"),
                         Tokenizer.Token(OP, ","), Tokenizer.Token(NAME, "c"), EndToken];
      Combinators.Eval(Combinators.SepBy(OpP, NameP), toks, Start)
        == Res(Success(Arr([Tok(Tokenizer.Token(NAME, "a")), Tok(Tokenizer.Token(NAME, "b")),
                            Tok(Tokenizer.Token(NAME, "c"))])), State(5, false))
  {
    var toks := [Tokenizer.Token(NAME, "a"), Tokenizer.Token(OP, ","), Tokenizer.Token(NAME, "b"),
                 Tokenizer.Token(OP, ","), Tokenizer.Token(NAME, "c"), EndToken];
    var pair := IgnoreThen(OpP, NameP);
    var a := Tok(Tokenizer.Token(NAME, "a"));
    var b := Tok(Tokenizer.Token(NAME, "b"));
    var c := Tok(Tokenizer.Token(NAME, "c"));
    assert Combinators.Eval(NameP, toks, State(0, false)) == Res(Success(a), State(1, false));
    assert Combinators.Eval(OpP, toks, State(1, false)) == Res(Success(Tok(toks[1])), State(2, false));
    assert Combinators.Eval(NameP, toks, State(2, false)) == Res(Success(b), State(3, false));
    assert Combinators.Eval(pair, toks, State(1, false)) == Res(Success(b), State(3, false));
    assert Combinators.Eval(OpP, toks, State(3, false)) == Res(Success(Tok(toks[3])), State(4, false));
    assert Combinators.Eval(NameP, toks, State(4, false)) == Res(Success(c), State(5, false));
    assert Combinators.Eval(pair, toks, State(3, false)) == Res(Success(c), State(5, false));
    assert Combinators.Eval(OpP, toks, State(5, false)) == Res(Failure(false), State(5, false));
    assert Combinators.Eval(pair, toks, State(5, false)) == Res(Failure(false), State(5, false));
    assert [] + [b] == [b];
    assert [b] + [c] == [b, c];
    assert Combinators.ManyLoop(pair, toks, State(5, false), [b, c]) == Res(Success(Arr([b, c])), State(5, false));
    assert Combinators.ManyLoop(pair, toks, State(3, false), [b]) == Res(Success(Arr([b, c])), State(5, false));
    assert Combinators.ManyLoop(pair, toks, State(1, false), []) == Res(Success(Arr([b, c])), State(5, false));
    assert Combinators.Eval(Combinators.Many(pair), toks, State(1, false))
        == Res(Success(Arr([b, c])), State(5, false));
    assert Concat(a, Arr([b, c])) == Arr([a, b, c]) by {
      assert Concat(a, Arr([b, c])).items == [a] + [b, c];
    }
    assert Combinators.SepBy(OpP, NameP) == Then(NameP, Combinators.Many(pair));
  }

  /** `"a,b,c"`: the separators are left out and the stream ends on the end marker. */
  lemma JoinDropsSeparators()
    ensures Lex("a,b,c")
        == Ok([Tokenizer.Token(NAME, "a"), Tokenizer.Token(OP, ","), Tokenizer.Token(NAME, "b"),
               Tokenizer.Token(OP, ","), Tokenizer.Token(NAME, "c"), EndToken])
    ensures var toks := [Tokenizer.Token(NAME, "a"), Tokenizer.Token(OP, ","), Tokenizer.Token(NAME, "b"),
                         Tokenizer.Token(OP, ","), Tokenizer.Token(NAME, "c"), EndToken];
      Combinators.Eval(Combinators.SepBy(OpP, NameP), toks, Start)
        == Res(Success(Arr([Tok(Tokenizer.Token(NAME, "a")), Tok(Tokenizer.Token(NAME, "b")),
                            Tok(Tokenizer.Token(NAME, "c"))])), State(5, false))
  {
    LexCommaABC();
    JoinDropsSeparatorsTokens();
  }

  /** On the tokens of `"foo,"`. */
  lemma WithLooksAheadTokens()
    ensures var toks := [Tokenizer.Token(NAME, "foo"), Tokenizer.Token(OP, ","), EndToken];
      && Combinators.Eval(Combinators.With(NameP, OpP), toks, Start) == Res(Success(Tok(toks[0])), State(1, false))
      && Combinators.Eval(OpP, toks, State(1, false)) == Res(Success(Tok(toks[1])), State(2, false))
  {
  }

  /** `"foo,"`: `with` leaves the comma for the next parse. */
  lemma WithLooksAhead()
    ensures Lex("foo,") == Ok([Tokenizer.Token(NAME, "foo"), Tokenizer.Token(OP, ","), EndToken])
    ensures var toks := [Tokenizer.Token(NAME, "foo"), Tokenizer.Token(OP, ","), EndToken];
      && Combinators.Eval(Combinators.With(NameP, OpP), toks, Start) == Res(Success(Tok(toks[0])), State(1, false))
      && Combinators.Eval(OpP, toks, State(1, false)) == Res(Success(Tok(toks[1])), State(2, false))
  {
    LexFooComma();
    WithLooksAheadTokens();
  }

  /** On the tokens of `"foo,"` and `"foo bar"`. */
  lemma WithoutRejectsTokens()
    ensures var toks := [Tokenizer.Token(NAME, "foo"), Tokenizer.Token(OP, ","), EndToken];
      Combinators.Eval(Combinators.Without(NameP, OpP), toks, Start) == Res(Failure(true), Start)
    ensures var toks := [Tokenizer.Token(NAME, "foo"), Tokenizer.Token(NAME, "bar"), EndToken];
      Combinators.Eval(Combinators.Without(NameP, OpP), toks, Start) == Res(Success(Tok(toks[0])), State(1, false))
  {
    var toks := [Tokenizer.Token(NAME, "foo"), Tokenizer.Token(OP, ","), EndToken];
    assert Combinators.Eval(NameP, toks, Start) == Res(Success(Tok(toks[0])), State(1, false));
    assert Combinators.Eval(OpP, toks, State(1, false)) == Res(Success(Tok(toks[1])), State(2, false));
    assert Combinators.Eval(Combinators.NotAhead(OpP), toks, State(1, false)) == Res(Failure(false), State(1, false));
    var toks2 := [Tokenizer.Token(NAME, "foo"), Tokenizer.Token(NAME, "bar"), EndToken];
    assert Combinators.Eval(NameP, toks2, Start) == Res(Success(Tok(toks2[0])), State(1, false));
    assert Combinators.Eval(OpP, toks2, State(1, false)) == Res(Failure(false), State(1, false));
    assert Combinators.Eval(Combinators.NotAhead(OpP), toks2, State(1, false)) == Res(Success(Null), State(1, false));
  }

  /** `"foo,"` and `"foo bar"`: `without` rejects a name before a comma only. */
  lemma WithoutRejects()
    ensures Lex("foo,") == Ok([Tokenizer.Token(NAME, "foo"), Tokenizer.Token(OP, ","), EndToken])
    ensures Lex("foo bar") == Ok([Tokenizer.Token(NAME, "foo"), Tokenizer.Token(NAME, "bar"), EndToken])
    ensures var toks := [Tokenizer.Token(NAME, "foo"), Tokenizer.Token(OP, ","), EndToken];
      Combinators.Eval(Combinators.Without(NameP, OpP), toks, Start) == Res(Failure(true), Start)
    ensures var toks := [Tokenizer.Token(NAME, "foo"), Tokenizer.Token(NAME, "bar"), EndToken];
      Combinators.Eval(Combinators.Without(NameP, OpP), toks, Start) == Res(Success(Tok(toks[0])), State(1, false))
  {
    LexFooComma();
    LexFooBar();
    WithoutRejectsTokens();
  }

  /** On the tokens of `"foo bar"`. */
  lemma CommitSurfacesErrorTokens()
    ensures var toks := [Tokenizer.Token(NAME, "foo"), Tokenizer.Token(NAME, "bar"), EndToken];
      Combinators.Eval(Combinators.Or(Combinators.Commit(Then(NameP, NumberP)), NameP), toks, Start).out.Fatal?
  {
    var toks := [Tokenizer.Token(NAME, "foo"), Tokenizer.Token(NAME, "bar"), EndToken];
    assert Combinators.Eval(NameP, toks, Start) == Res(Success(Tok(toks[0])), State(1, false));
    assert Combinators.Eval(NumberP, toks, State(1, false)) == Res(Failure(false), State(1, false));
    assert Combinators.Eval(Then(NameP, NumberP), toks, Start) == Res(Failure(true), Start);
  }

  /** `"foo bar"`: a committed `name number` that fails after the name is a syntax error. */
  lemma CommitSurfacesError()
    ensures Lex("foo bar") == Ok([Tokenizer.Token(NAME, "foo"), Tokenizer.Token(NAME, "bar"), EndToken])
    ensures var toks := [Tokenizer.Token(NAME, "foo"), Tokenizer.Token(NAME, "bar"), EndToken];
      Combinators.Eval(Combinators.Or(Combinators.Commit(Then(NameP, NumberP)), NameP), toks, Start).out.Fatal?
  {
    LexFooBar();
    CommitSurfacesErrorTokens();
  }

  function Lit(x: string): Combinators.Parser { Literal(x) }

  /** `a ~ b | c ~ d` */
  function CommittedAlternation(): Combinators.Parser
  {
    Combinators.Or(Then(Combinators.Commit(Lit("a")), Lit("b")), Then(Combinators.Commit(Lit("c")), Lit("d")))
  }

  /** On the tokens of `"a b"` and `"c d"`. */
  lemma CommittedAlternationAcceptsTokens()
    ensures Combinators.Eval(CommittedAlternation(), Letters("ab"), Start).out.Success?
    ensures Combinators.Eval(CommittedAlternation(), Letters("cd"), Start).out.Success?
  {
    var ab, cd := Letters("ab"), Letters("cd");
    LettersReady("ab", Start);
    LettersReady("ab", State(1, true));
    LettersReady("cd", Start);
    LettersReady("cd", State(1, true));
    assert ab[0].text == "a" && ab[1].text == "b" && cd[0].text == "c" && cd[1].text == "d";
    LitAt("a", ab, Start);
    LitAt("b", ab, State(1, true));
    assert Combinators.Eval(Then(Combinators.Commit(Lit("a")), Lit("b")), ab, Start).out.Success?;
    LitAt("a", cd, Start);
    assert Combinators.Eval(Then(Combinators.Commit(Lit("a")), Lit("b")), cd, Start) == Res(Failure(false), Start);
    LitAt("c", cd, Start);
    LitAt("d", cd, State(1, true));
    assert Combinators.Eval(Then(Combinators.Commit(Lit("c")), Lit("d")), cd, Start).out.Success?;
  }

  lemma CommittedAlternationAccepts()
    ensures Lex("a b") == Ok(Letters("ab"))
    ensures Lex("c d") == Ok(Letters("cd"))
    ensures Combinators.Eval(CommittedAlternation(), Letters("ab"), Start).out.Success?
    ensures Combinators.Eval(CommittedAlternation(), Letters("cd"), Start).out.Success?
  {
    LexSpacedText("ab", "a b");
    LexSpacedText("cd", "c d");
    CommittedAlternationAcceptsTokens();
  }

  /** On the tokens of `"a d"`. */
  lemma CommittedAlternationErrorTokens()
    ensures Combinators.Eval(CommittedAlternation(), Letters("ad"), Start).out.Fatal?
  {
  }

  lemma CommittedAlternationError()
    ensures Lex("a d") == Ok(Letters("ad"))
    ensures Combinators.Eval(CommittedAlternation(), Letters("ad"), Start).out.Fatal?
  {
    LexSpacedText("ad", "a d");
    CommittedAlternationErrorTokens();
  }

  /** `a ~ (b c | d)` */
  function NestedA(): Combinators.Parser
  {
    Then(Combinators.Commit(Lit("a")), Combinators.Or(Then(Lit("b"), Lit("c")), Lit("d")))
  }

  /** `e (f ~ g | h) i` */
  function NestedE(): Combinators.Parser
  {
    Then(Then(Lit("e"), Combinators.Or(Then(Combinators.Commit(Lit("f")), Lit("g")), Lit("h"))), Lit("i"))
  }

  /** `a ~ (b c | d) | e (f ~ g | h) i | j`, built with the methods as the test chains them. */
  function Nested(): Combinators.Parser
  {
    Combinators.Or(Combinators.Or(NestedA(), NestedE()), Lit("j"))
  }

  /** A literal on a name token: taken when the text is the literal, otherwise a plain miss. */
  lemma LitAt(x: string, toks: seq<Tokenizer.Token>, st: State)
    requires Ready(toks, st) && toks[st.offset].kind == NAME
    ensures toks[st.offset].text == x ==>
      Combinators.Eval(Lit(x), toks, st) == Res(Success(Tok(toks[st.offset])), st.(offset := st.offset + 1))
    ensures toks[st.offset].text != x ==>
      Combinators.Eval(Lit(x), toks, st) == Res(Failure(false), st)
  {
  }

  /** The letters as name tokens, ready to parse from any position before the end marker. */
  lemma LettersReady(s: string, st: State)
    requires st.offset <= |s|
    ensures Ready(Letters(s), st)
  {
    var toks := Letters(s);
    assert forall i :: 0 <= i < |toks| - 1 ==> toks[i].kind == NAME;
  }

  /** Without an `a` in front, `a ~ (b c | d)` fails without matching. */
  lemma NestedAMisses(toks: seq<Tokenizer.Token>)
    requires Ready(toks, Start) && toks[0].kind == NAME && toks[0].text != "a"
    ensures Combinators.Eval(NestedA(), toks, Start) == Res(Failure(false), Start)
  {
    LitAt("a", toks, Start);
    assert Combinators.Eval(Combinators.Commit(Lit("a")), toks, Start) == Res(Failure(false), Start);
  }

  /** On the tokens of `"a b c"`. */
  lemma NestedAcceptsAbcTokens()
    ensures Combinators.Eval(Nested(), Letters("abc"), Start).out.Success?
  {
    var toks := Letters("abc");
    var s1 := State(1, true);
    LettersReady("abc", Start);
    LettersReady("abc", s1);
    LettersReady("abc", State(2, true));
    assert toks[0].text == "a" && toks[1].text == "b" && toks[2].text == "c";
    LitAt("a", toks, Start);
    assert Combinators.Eval(Combinators.Commit(Lit("a")), toks, Start).st == s1;
    LitAt("b", toks, s1);
    LitAt("c", toks, State(2, true));
    assert Combinators.Eval(Then(Lit("b"), Lit("c")), toks, s1).out.Success?;
    assert Combinators.Eval(NestedA(), toks, Start).out.Success?;
    assert Combinators.Eval(Combinators.Or(NestedA(), NestedE()), toks, Start).out.Success?;
  }

  lemma NestedAcceptsAbc()
    ensures Lex("a b c") == Ok(Letters("abc"))
    ensures Combinators.Eval(Nested(), Letters("abc"), Start).out.Success?
  {
    LexSpacedText("abc", "a b c");
    NestedAcceptsAbcTokens();
  }

  /** On the tokens of `"a d"`. */
  lemma NestedAcceptsAdTokens()
    ensures Combinators.Eval(Nested(), Letters("ad"), Start).out.Success?
  {
    var toks := Letters("ad");
    var s1 := State(1, true);
    LettersReady("ad", Start);
    LettersReady("ad", s1);
    assert toks[0].text == "a" && toks[1].text == "d";
    LitAt("a", toks, Start);
    assert Combinators.Eval(Combinators.Commit(Lit("a")), toks, Start).st == s1;
    LitAt("b", toks, s1);
    assert Combinators.Eval(Then(Lit("b"), Lit("c")), toks, s1) == Res(Failure(false), s1);
    LitAt("d", toks, s1);
    assert Combinators.Eval(NestedA(), toks, Start).out.Success?;
    assert Combinators.Eval(Combinators.Or(NestedA(), NestedE()), toks, Start).out.Success?;
  }

  lemma NestedAcceptsAd()
    ensures Lex("a d") == Ok(Letters("ad"))
    ensures Combinators.Eval(Nested(), Letters("ad"), Start).out.Success?
  {
    LexSpacedText("ad", "a d");
    NestedAcceptsAdTokens();
  }

  /** On the tokens of `"e f g i"`. */
  lemma NestedAcceptsEfgiTokens()
    ensures Combinators.Eval(Nested(), Letters("efgi"), Start).out.Success?
  {
    var toks := Letters("efgi");
    var s1, s2, s3 := State(1, false), State(2, true), State(3, true);
    LettersReady("efgi", Start);
    LettersReady("efgi", s1);
    LettersReady("efgi", s2);
    LettersReady("efgi", s3);
    assert toks[0].text == "e" && toks[1].text == "f" && toks[2].text == "g" && toks[3].text == "i";
    NestedAMisses(toks);
    LitAt("e", toks, Start);
    LitAt("f", toks, s1);
    assert Combinators.Eval(Combinators.Commit(Lit("f")), toks, s1).st == s2;
    LitAt("g", toks, s2);
    assert Combinators.Eval(Then(Combinators.Commit(Lit("f")), Lit("g")), toks, s1).st == s3;
    assert Combinators.Eval(Combinators.Or(Then(Combinators.Commit(Lit("f")), Lit("g")), Lit("h")), toks, s1).st == s3;
    LitAt("i", toks, s3);
    assert Combinators.Eval(NestedE(), toks, Start).out.Success?;
  }

  lemma NestedAcceptsEfgi()
    ensures Lex("e f g i") == Ok(Letters("efgi"))
    ensures Combinators.Eval(Nested(), Letters("efgi"), Start).out.Success?
  {
    LexSpacedText("efgi", "e f g i");
    NestedAcceptsEfgiTokens();
  }

  /** On the tokens of `"e h i"`. */
  lemma NestedAcceptsEhiTokens()
    ensures Combinators.Eval(Nested(), Letters("ehi"), Start).out.Success?
  {
    var toks := Letters("ehi");
    var s1, s2 := State(1, false), State(2, false);
    LettersReady("ehi", Start);
    LettersReady("ehi", s1);
    LettersReady("ehi", s2);
    assert toks[0].text == "e" && toks[1].text == "h" && toks[2].text == "i";
    NestedAMisses(toks);
    LitAt("e", toks, Start);
    LitAt("f", toks, s1);
    assert Combinators.Eval(Then(Combinators.Commit(Lit("f")), Lit("g")), toks, s1) == Res(Failure(false), s1);
    LitAt("h", toks, s1);
    assert Combinators.Eval(Combinators.Or(Then(Combinators.Commit(Lit("f")), Lit("g")), Lit("h")), toks, s1).st == s2;
    LitAt("i", toks, s2);
    assert Combinators.Eval(NestedE(), toks, Start).out.Success?;
  }

  lemma NestedAcceptsEhi()
    ensures Lex("e h i") == Ok(Letters("ehi"))
    ensures Combinators.Eval(Nested(), Letters("ehi"), Start).out.Success?
  {
    LexSpacedText("ehi", "e h i");
    NestedAcceptsEhiTokens();
  }

  /** On the tokens of `"j"`. */
  lemma NestedAcceptsJTokens()
    ensures Combinators.Eval(Nested(), Letters("j"), Start).out.Success?
  {
    var toks := Letters("j");
    LettersReady("j", Start);
    assert toks[0].text == "j";
    NestedAMisses(toks);
    LitAt("e", toks, Start);
    assert Combinators.Eval(NestedE(), toks, Start) == Res(Failure(false), Start);
    LitAt("j", toks, Start);
  }

  lemma NestedAcceptsJ()
    ensures Lex("j") == Ok(Letters("j"))
    ensures Combinators.Eval(Nested(), Letters("j"), Start).out.Success?
  {
    LexSpacedText("j", "j");
    NestedAcceptsJTokens();
  }

  /** On the tokens of `"a b d"`. */
  lemma NestedRejectsAbdTokens()
    ensures Combinators.Eval(Nested(), Letters("abd"), Start).out.Fatal?
  {
    var toks := Letters("abd");
    var s1 := State(1, true);
    LettersReady("abd", Start);
    LettersReady("abd", s1);
    LettersReady("abd", State(2, true));
    assert toks[0].text == "a" && toks[1].text == "b" && toks[2].text == "d";
    LitAt("a", toks, Start);
    assert Combinators.Eval(Combinators.Commit(Lit("a")), toks, Start).st == s1;
    LitAt("b", toks, s1);
    LitAt("c", toks, State(2, true));
    assert Combinators.Eval(Then(Lit("b"), Lit("c")), toks, s1).out.Fatal?;
    assert Combinators.Eval(NestedA(), toks, Start).out.Fatal?;
  }

  lemma NestedRejectsAbd()
    ensures Lex("a b d") == Ok(Letters("abd"))
    ensures Combinators.Eval(Nested(), Letters("abd"), Start).out.Fatal?
  {
    LexSpacedText("abd", "a b d");
    NestedRejectsAbdTokens();
  }

  /** On the tokens of `"a b"`. */
  lemma NestedRejectsAbTokens()
    ensures Combinators.Eval(Nested(), Letters("ab"), Start).out.Fatal?
  {
    var toks := Letters("ab");
    var s1, s2 := State(1, true), State(2, true);
    LettersReady("ab", Start);
    LettersReady("ab", s1);
    assert toks[0].text == "a" && toks[1].text == "b" && toks[2] == EndToken;
    LitAt("a", toks, Start);
    assert Combinators.Eval(Combinators.Commit(Lit("a")), toks, Start).st == s1;
    LitAt("b", toks, s1);
    assert Combinators.Eval(Lit("c"), toks, s2) == Res(Failure(false), s2);
    assert Combinators.Eval(Then(Lit("b"), Lit("c")), toks, s1).out.Fatal?;
    assert Combinators.Eval(NestedA(), toks, Start).out.Fatal?;
  }

  lemma NestedRejectsAb()
    ensures Lex("a b") == Ok(Letters("ab"))
    ensures Combinators.Eval(Nested(), Letters("ab"), Start).out.Fatal?
  {
    LexSpacedText("ab", "a b");
    NestedRejectsAbTokens();
  }

  /** On the tokens of `"a e"`. */
  lemma NestedRejectsAeTokens()
    ensures Combinators.Eval(Nested(), Letters("ae"), Start).out.Fatal?
  {
    var toks := Letters("ae");
    var s1 := State(1, true);
    LettersReady("ae", Start);
    LettersReady("ae", s1);
    assert toks[0].text == "a" && toks[1].text == "e";
    LitAt("a", toks, Start);
    assert Combinators.Eval(Combinators.Commit(Lit("a")), toks, Start).st == s1;
    LitAt("b", toks, s1);
    assert Combinators.Eval(Then(Lit("b"), Lit("c")), toks, s1) == Res(Failure(false), s1);
    LitAt("d", toks, s1);
    assert Combinators.Eval(Combinators.Or(Then(Lit("b"), Lit("c")), Lit("d")), toks, s1) == Res(Failure(false), s1);
    assert Combinators.Eval(NestedA(), toks, Start).out.Fatal?;
  }

  lemma NestedRejectsAe()
    ensures Lex("a e") == Ok(Letters("ae"))
    ensures Combinators.Eval(Nested(), Letters("ae"), Start).out.Fatal?
  {
    LexSpacedText("ae", "a e");
    NestedRejectsAeTokens();
  }

  /** On the tokens of `"e f i"`. */
  lemma NestedRejectsEfiTokens()
    ensures Combinators.Eval(Nested(), Letters("efi"), Start).out.Fatal?
  {
    var toks := Letters("efi");
    var s1, s2 := State(1, false), State(2, true);
    LettersReady("efi", Start);
    LettersReady("efi", s1);
    LettersReady("efi", s2);
    assert toks[0].text == "e" && toks[1].text == "f" && toks[2].text == "i";
    NestedAMisses(toks);
    LitAt("e", toks, Start);
    LitAt("f", toks, s1);
    assert Combinators.Eval(Combinators.Commit(Lit("f")), toks, s1).st == s2;
    LitAt("g", toks, s2);
    assert Combinators.Eval(Then(Combinators.Commit(Lit("f")), Lit("g")), toks, s1).out.Fatal?;
    assert Combinators.Eval(NestedE(), toks, Start).out.Fatal?;
  }

  lemma NestedRejectsEfi()
    ensures Lex("e f i") == Ok(Letters("efi"))
    ensures Combinators.Eval(Nested(), Letters("efi"), Start).out.Fatal?
  {
    LexSpacedText("efi", "e f i");
    NestedRejectsEfiTokens();
  }
}
