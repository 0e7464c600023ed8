/**
 * The token-level parsers built on the engine: a stream over the tokens of a text,
 * `parse` on text, and the one-token parsers `comment`, `eof`, `number`, `name`,
 * `op`, `string` and `constant`.
 */
module TokenParsers {
  import opened Wrappers
  import opened Strings
  import opened Tokenizer
  import opened Merging
  import opened Base

  /** `new TokenStream(content)`: a parse stream over the tokens of `content`; a lexing error is thrown. */
  method NewTokenStream(content: string) returns (r: Result<ParseStream, LexError>)
    ensures Lex(content).Err? ==> r == Err(Lex(content).error)
    ensures Lex(content).Ok? ==>
      && r.Ok? && fresh(r.value) && fresh(r.value.base)
      && r.value.base.content == Lex(content).value
      && r.value.Snapshot() == State(0, false)
  {
    var toks := Tokenize(content);
    if toks.Err? {
      return Err(toks.error);
    }
    var s := new ParseStream(toks.value);
    return Ok(s);
  }

  /**
   * `parser.parse(content)` on text: tokenize, then parse from the first token, with
   * `and` merging by the merge `keepTag` selects (`false` is the merge as written).
   */
  method ParseText(p: Parser, content: string, keepTag: bool) returns (r: Result<Outcome, LexError>)
    ensures Lex(content).Err? ==> r == Err(Lex(content).error)
    ensures Lex(content).Ok? ==> r == Ok(Eval(p, Lex(content).value, State(0, false), keepTag).out)
  {
    var toks := Tokenize(content);
    if toks.Err? {
      return Err(toks.error);
    }
    var out := Parse(p, toks.value, keepTag);
    return Ok(out);
  }

  /** `t.string`: a matched token as its text. */
  function TextOf(v: Value): Value
  {
    if v.Tok? then Str(v.token.text) else v
  }

  /**
   * `parseInt(t.string)` for a matched token: the decimal value of its digits. A
   * `NUMBER` token from the tokenizer is a non-empty run of digits.
   */
  function IntOf(v: Value): Value
  {
    if v.Tok? && |v.token.text| > 0 && AllDigits(v.token.text) then Num(DigitsValue(v.token.text))
    else Null
  }

  function Comment(): Parser { Match(COMMENT, None) }
  function Eof(): Parser { Match(ENDMARKER, None) }
  function Number(value: Option<string>): Parser { Map(Match(NUMBER, value), IntOf) }
  function Name(value: Option<string>): Parser { Map(Match(NAME, value), TextOf) }
  function Op(value: Option<string>): Parser { Map(Match(OP, value), TextOf) }
  function StringP(value: Option<string>): Parser { Map(Match(STRING, value), TextOf) }

  function AsNull(v: Value): Value { Null }
  function AsTrue(v: Value): Value { Bool(true) }
  function AsFalse(v: Value): Value { Bool(false) }

  /** `Parser.constant()`: `None`, `True`, `False`, a number or a string, tried in that order. */
  function Constant(): Parser
  {
    OrAll([NoneP(), TrueP(), FalseP(), Number(None), StringP(None)])
  }

  /** The state after taking one token. */
  function Took(st: State): State { st.(offset := st.offset + 1) }

  /**
   * A one-token parser takes the next token exactly when its kind matches and, if a
   * non-empty value is given, its text equals the value; otherwise it fails without
   * matching and leaves the state as it was, whatever the eager flag.
   */
  lemma TokenContract(kind: TokenType, value: Option<string>, toks: seq<Token>, st: State, keepTag: bool)
    ensures var r := Eval(Match(kind, value), toks, st, keepTag);
      if st.offset < |toks| && toks[st.offset].kind == kind
         && (value.None? || value.value == "" || toks[st.offset].text == value.value)
      then r == Res(Success(Tok(toks[st.offset])), Took(st))
      else r == Res(Failure(false), st)
  {
  }

  /** `name`, `op` and `string` give the matched token's text. */
  lemma TextParsersContract(value: Option<string>, toks: seq<Token>, st: State, keepTag: bool)
    requires st.offset < |toks|
    ensures var t := toks[st.offset];
      && (Matches(t, NAME, value) ==> Eval(Name(value), toks, st, keepTag) == Res(Success(Str(t.text)), Took(st)))
      && (Matches(t, OP, value) ==> Eval(Op(value), toks, st, keepTag) == Res(Success(Str(t.text)), Took(st)))
      && (Matches(t, STRING, value) ==> Eval(StringP(value), toks, st, keepTag) == Res(Success(Str(t.text)), Took(st)))
  {
  }

  /** `number` on a number token, any non-empty run of digits: the decimal value of the run. */
  lemma NumberContract(toks: seq<Token>, st: State, keepTag: bool)
    requires st.offset < |toks| && toks[st.offset].kind == NUMBER
    requires |toks[st.offset].text| > 0 && AllDigits(toks[st.offset].text)
    ensures Eval(Number(None), toks, st, keepTag) == Res(Success(Num(DigitsValue(toks[st.offset].text))), Took(st))
  {
  }

  /** On the decimal text of `n`, `number` gives `n` back. */
  lemma NumberReadsBack(toks: seq<Token>, st: State, n: nat, keepTag: bool)
    requires st.offset < |toks| && toks[st.offset] == Token(NUMBER, NatToString(n))
    ensures Eval(Number(None), toks, st, keepTag) == Res(Success(Num(n)), Took(st))
  {
    NumberContract(toks, st, keepTag);
    DigitsRoundTrip(n);
  }

  /** Leading zeros are read past, as `parseInt` does: `0012` is 12. */
  lemma NumberLeadingZeros(toks: seq<Token>, st: State, keepTag: bool)
    requires st.offset < |toks| && toks[st.offset] == Token(NUMBER, "0012")
    ensures Eval(Number(None), toks, st, keepTag) == Res(Success(Num(12)), Took(st))
  {
    NumberContract(toks, st, keepTag);
    assert "0"[..0] == "" && "00"[..1] == "0" && "001"[..2] == "00" && "0012"[..3] == "001";
    assert DigitsValue("0") == 0;
    assert DigitsValue("00") == 0;
    assert DigitsValue("001") == 1;
    assert DigitsValue("0012") == 12;
  }

  /** An empty value matches every token of the kind, as `!value` does. */
  lemma EmptyValueMatchesAny(kind: TokenType, t: Token)
    requires t.kind == kind
    ensures Matches(t, kind, Some("")) && Matches(t, kind, None)
  {
  }

  /** What `constant` reads from the next token. */
  function ConstantOf(t: Token): Option<Value>
  {
    if t.kind == NAME && t.text == "None" then Some(Null)
    else if t.kind == NAME && t.text == "True" then Some(Bool(true))
    else if t.kind == NAME && t.text == "False" then Some(Bool(false))
    else if t.kind == NUMBER then Some(IntOf(Tok(t)))
    else if t.kind == STRING then Some(Str(t.text))
    else None
  }

  function NoneP(): Parser { Map(Name(Some("None")), AsNull) }
  function TrueP(): Parser { Map(Name(Some("True")), AsTrue) }
  function FalseP(): Parser { Map(Name(Some("False")), AsFalse) }

  lemma ConstantShape()
    ensures Constant() == Or(Or(Or(Or(NoneP(), TrueP()), FalseP()), Number(None)), StringP(None))
  {
    var p2 := [NoneP(), TrueP()];
    assert p2[..1] == [NoneP()];
    var p3 := p2 + [FalseP()];
    assert p3[..2] == p2;
    var p4 := p3 + [Number(None)];
    assert p4[..3] == p3;
    var p5 := p4 + [StringP(None)];
    assert p5[..4] == p4;
    assert OrAll(p5) == Or(OrAll(p4), StringP(None));
    assert OrAll(p4) == Or(OrAll(p3), Number(None));
    assert OrAll(p3) == Or(OrAll(p2), FalseP());
    assert p5 == [NoneP(), TrueP(), FalseP(), Number(None), StringP(None)];
  }

  lemma OrTakesFirst(a: Parser, b: Parser, toks: seq<Token>, st: State, keepTag: bool)
    requires Eval(a, toks, st, keepTag).out.Success?
    ensures Eval(Or(a, b), toks, st, keepTag) == Eval(a, toks, st, keepTag)
  {
  }

  lemma OrTriesNext(a: Parser, b: Parser, toks: seq<Token>, st: State, keepTag: bool)
    requires Eval(a, toks, st, keepTag) == Res(Failure(false), st)
    ensures Eval(Or(a, b), toks, st, keepTag) == Eval(b, toks, st, keepTag)
  {
  }

  /** The five alternatives of `constant` on the next token. */
  lemma ConstantAlternatives(toks: seq<Token>, st: State, keepTag: bool)
    ensures var ok := st.offset < |toks|;
      var t := if ok then toks[st.offset] else EndToken;
      && Eval(NoneP(), toks, st, keepTag)
         == (if ok && t.kind == NAME && t.text == "None" then Res(Success(Null), Took(st)) else Res(Failure(false), st))
      && Eval(TrueP(), toks, st, keepTag)
         == (if ok && t.kind == NAME && t.text == "True" then Res(Success(Bool(true)), Took(st)) else Res(Failure(false), st))
      && Eval(FalseP(), toks, st, keepTag)
         == (if ok && t.kind == NAME && t.text == "False" then Res(Success(Bool(false)), Took(st)) else Res(Failure(false), st))
      && Eval(Number(None), toks, st, keepTag)
         == (if ok && t.kind == NUMBER then Res(Success(IntOf(Tok(t))), Took(st)) else Res(Failure(false), st))
      && Eval(StringP(None), toks, st, keepTag)
         == (if ok && t.kind == STRING then Res(Success(Str(t.text)), Took(st)) else Res(Failure(false), st))
  {
    TokenContract(NAME, Some("None"), toks, st, keepTag);
    TokenContract(NAME, Some("True"), toks, st, keepTag);
    TokenContract(NAME, Some("False"), toks, st, keepTag);
    TokenContract(NUMBER, None, toks, st, keepTag);
    TokenContract(STRING, None, toks, st, keepTag);
  }

  /**
   * `constant` takes one token when it is `None`, `True`, `False`, a number or a
   * string, with the matching value, and otherwise fails leaving the state alone.
   */
  lemma ConstantContract(toks: seq<Token>, st: State, keepTag: bool)
    ensures var r := Eval(Constant(), toks, st, keepTag);
      if st.offset < |toks| && ConstantOf(toks[st.offset]).Some?
      then r == Res(Success(ConstantOf(toks[st.offset]).value), Took(st))
      else r == Res(Failure(false), st)
  {
    ConstantShape();
    ConstantAlternatives(toks, st, keepTag);
    var fail := Res(Failure(false), st);
    var n2 := Or(NoneP(), TrueP());
    var n3 := Or(n2, FalseP());
    var n4 := Or(n3, Number(None));
    if Eval(NoneP(), toks, st, keepTag) != fail {
      OrTakesFirst(NoneP(), TrueP(), toks, st, keepTag);
      OrTakesFirst(n2, FalseP(), toks, st, keepTag);
      OrTakesFirst(n3, Number(None), toks, st, keepTag);
      OrTakesFirst(n4, StringP(None), toks, st, keepTag);
      return;
    }
    OrTriesNext(NoneP(), TrueP(), toks, st, keepTag);
    if Eval(TrueP(), toks, st, keepTag) != fail {
      OrTakesFirst(n2, FalseP(), toks, st, keepTag);
      OrTakesFirst(n3, Number(None), toks, st, keepTag);
      OrTakesFirst(n4, StringP(None), toks, st, keepTag);
      return;
    }
    OrTriesNext(n2, FalseP(), toks, st, keepTag);
    if Eval(FalseP(), toks, st, keepTag) != fail {
      OrTakesFirst(n3, Number(None), toks, st, keepTag);
      OrTakesFirst(n4, StringP(None), toks, st, keepTag);
      return;
    }
    OrTriesNext(n3, Number(None), toks, st, keepTag);
    if Eval(Number(None), toks, st, keepTag) != fail {
      OrTakesFirst(n4, StringP(None), toks, st, keepTag);
      return;
    }
    OrTriesNext(n4, StringP(None), toks, st, keepTag);
  }
}
