/**
 * The character-level tokenizer: a left-to-right scan that skips blanks, and emits
 * comments, quoted strings, names, numbers and operators, then one end marker.
 * An unexpected character is an error and no tokens are returned.
 */
module Tokenizer {
  import opened Wrappers
  import opened Strings

  datatype TokenType = NAME | NUMBER | STRING | OP | COMMENT | ENDMARKER

  /** A token: its type and its text (for a string, the text between the quotes). */
  datatype Token = Token(kind: TokenType, text: string)

  const EndToken := Token(ENDMARKER, "")

  /** The thrown "Unexpected character" error, with the character. */
  datatype LexError = UnexpectedCharacter(ch: char)

  predicate IsNameStart(c: char) { IsLetter(c) || c == '_' }
  predicate IsNameChar(c: char) { IsLetter(c) || IsDigit(c) || c == '_' }
  predicate IsOpChar(c: char) { c in "=+-*/%&|^<>@:~!()[]{},;." }
  predicate IsBlank(c: char) { c == ' ' || c == '\n' || c == '\t' || c == '\\' }
  predicate IsQuote(c: char) { c == '\'' || c == '"' }

  const ThreeCharOps: set<string> := {"<<=", ">>=", "//=", "**=", "..."}
  const TwoCharOps: set<string> :=
    {"->", "==", ">=", "<=", "!=", "//", "**", "+=", "-=", "*=", "/=", "%=", "&=", "|=", "^=", ">>", "<<"}

  /** `content.slice(i, j)` with JavaScript's clamping of the end. */
  function Slice(c: string, i: nat, j: nat): string
    requires i <= |c|
  {
    if j <= i then "" else if j <= |c| then c[i..j] else c[i..]
  }

  /** The longest operator at `start`: a three-character one, else a two-character one, else one character. */
  function ReadOperator(c: string, start: nat): (r: (string, nat))
    requires start < |c|
    ensures r.1 == start + |r.0| && r.1 <= |c| && r.0 == c[start..r.1]
    ensures |r.0| == 3 <==> Slice(c, start, start + 3) in ThreeCharOps
    ensures |r.0| == 2 <==> Slice(c, start, start + 3) !in ThreeCharOps && Slice(c, start, start + 2) in TwoCharOps
    ensures 1 <= |r.0| <= 3
  {
    var three := Slice(c, start, start + 3);
    if three in ThreeCharOps then (three, start + 3)
    else
      var two := Slice(c, start, start + 2);
      if two in TwoCharOps then (two, start + 2)
      else (c[start..start + 1], start + 1)
  }

  /** Keep scanning while the character is not a newline. */
  function NotNewline(ch: char): bool { ch != '\n' }
  /** Keep scanning while the character is not the quote `q`. */
  function NotChar(q: char): char -> bool { ch => ch != q }

  /** The end of the longest run of characters from `i` that satisfy `keep`. */
  function ScanWhile(c: string, i: nat, keep: char -> bool): (e: nat)
    requires i <= |c|
    ensures i <= e <= |c|
    ensures forall k :: i <= k < e ==> keep(c[k])
    ensures e == |c| || !keep(c[e])
    decreases |c| - i
  {
    if i < |c| && keep(c[i]) then ScanWhile(c, i + 1, keep) else i
  }

  /** Whether three copies of `q` start at `e`. */
  predicate TripleAt(c: string, q: char, e: nat)
  {
    e + 2 < |c| && c[e] == q && c[e + 1] == q && c[e + 2] == q
  }

  /**
   * Where the body of a triple-quoted string ends: the first closing triple, or,
   * when there is none, the point where fewer than three characters remain.
   */
  function TripleEnd(c: string, q: char, i: nat): (e: nat)
    requires i <= |c|
    ensures i <= e <= |c|
    ensures forall k :: i <= k < e ==> !TripleAt(c, q, k)
    ensures e > i ==> e + 1 < |c|
    ensures e + 2 >= |c| || TripleAt(c, q, e)
    decreases |c| - i
  {
    if i + 2 < |c| && !TripleAt(c, q, i) then TripleEnd(c, q, i + 1) else i
  }

  /** One pass of the scanning loop: skip a character, emit a token, or fail. */
  datatype LexStep = Skip(next: nat) | Emit(token: Token, next: nat) | Bad(ch: char)

  function Step(c: string, start: nat): (r: LexStep)
    requires start < |c|
    ensures !r.Bad? ==> r.next > start
  {
    var ch := c[start];
    if IsBlank(ch) then Skip(start + 1)
    else if ch == '#' then
      var e := ScanWhile(c, start, NotNewline);
      Emit(Token(COMMENT, c[start..e]), e)
    else if IsQuote(ch) then
      if start + 2 < |c| && c[start + 1] == ch && c[start + 2] == ch then
        var e := TripleEnd(c, ch, start + 3);
        Emit(Token(STRING, c[start + 3..e]), e + 3)
      else
        var e := ScanWhile(c, start + 1, NotChar(ch));
        Emit(Token(STRING, c[start + 1..e]), e + 1)
    else if IsNameStart(ch) then
      var e := ScanWhile(c, start + 1, IsNameChar);
      Emit(Token(NAME, c[start..e]), e)
    else if IsDigit(ch) then
      var e := ScanWhile(c, start + 1, IsDigit);
      Emit(Token(NUMBER, c[start..e]), e)
    else if IsOpChar(ch) then
      var (op, e) := ReadOperator(c, start);
      Emit(Token(OP, op), e)
    else Bad(ch)
  }

  /** The tokens of `c` from position `start` on. */
  function LexFrom(c: string, start: nat): Result<seq<Token>, LexError>
    decreases if start <= |c| then |c| - start else 0
  {
    if start >= |c| then Ok([EndToken])
    else
      match Step(c, start)
      case Skip(n) => LexFrom(c, n)
      case Emit(t, n) => Prepend([t], LexFrom(c, n))
      case Bad(ch) => Err(UnexpectedCharacter(ch))
  }

  function Prepend(ts: seq<Token>, r: Result<seq<Token>, LexError>): Result<seq<Token>, LexError>
  {
    match r
    case Ok(rest) => Ok(ts + rest)
    case Err(e) => Err(e)
  }

  /** `tokenize(content)` */
  function Lex(c: string): (r: Result<seq<Token>, LexError>)
    ensures r.Ok? ==> EndsWithOneMarker(r.value)
  {
    LexFromEndsWithOneMarker(c, 0);
    LexFrom(c, 0)
  }

  /** The scanning loop of one character class: the end of the run from `i`. */
  method ScanRun(content: string, i: nat, keep: char -> bool) returns (end: nat)
    requires i <= |content|
    ensures end == ScanWhile(content, i, keep)
  {
    end := i;
    while end < |content| && keep(content[end])
      invariant i <= end <= |content|
      invariant ScanWhile(content, end, keep) == ScanWhile(content, i, keep)
    {
      end := end + 1;
    }
  }

  /** The loop looking for the closing triple quote. */
  method ScanTriple(content: string, q: char, i: nat) returns (end: nat)
    requires i <= |content|
    ensures end == TripleEnd(content, q, i)
  {
    end := i;
    while end + 2 < |content| && (content[end] != q || content[end + 1] != q || content[end + 2] != q)
      invariant i <= end <= |content|
      invariant TripleEnd(content, q, end) == TripleEnd(content, q, i)
    {
      end := end + 1;
    }
  }

  /** One pass of the generator's loop body. */
  method ScanToken(content: string, start: nat) returns (s: LexStep)
    requires start < |content|
    ensures s == Step(content, start)
  {
    var ch := content[start];
    if ch == ' ' || ch == '\n' || ch == '\t' || ch == '\\' {
      return Skip(start + 1);
    }
    if ch == '#' {
      var end := ScanRun(content, start, NotNewline);
      return Emit(Token(COMMENT, content[start..end]), end);
    }
    if ch == '\'' || ch == '"' {
      if start + 2 < |content| && content[start + 1] == ch && content[start + 2] == ch {
        var end := ScanTriple(content, ch, start + 3);
        return Emit(Token(STRING, content[start + 3..end]), end + 3);
      }
      var end := ScanRun(content, start + 1, NotChar(ch));
      return Emit(Token(STRING, content[start + 1..end]), end + 1);
    }
    if IsNameStart(ch) {
      var end := ScanRun(content, start + 1, IsNameChar);
      return Emit(Token(NAME, content[start..end]), end);
    }
    if IsDigit(ch) {
      var end := ScanRun(content, start + 1, IsDigit);
      return Emit(Token(NUMBER, content[start..end]), end);
    }
    if IsOpChar(ch) {
      var (op, end) := ReadOperator(content, start);
      return Emit(Token(OP, op), end);
    }
    return Bad(ch);
  }

  /** The generator loop of the source, collected into a sequence. */
  method Tokenize(content: string) returns (r: Result<seq<Token>, LexError>)
    ensures r == Lex(content)
  {
    var tokens: seq<Token> := [];
    var start: nat := 0;
    match LexFrom(content, 0) {
      case Ok(ts) => assert [] + ts == ts;
      case Err(_) =>
    }
    while start < |content|
      invariant Lex(content) == Prepend(tokens, LexFrom(content, start))
      decreases |content| - start
    {
      var step := ScanToken(content, start);
      match step {
        case Skip(n) =>
          start := n;
        case Emit(t, n) =>
          PrependTwice(tokens, [t], LexFrom(content, n));
          tokens := tokens + [t];
          start := n;
        case Bad(ch) =>
          return Err(UnexpectedCharacter(ch));
      }
    }
    tokens := tokens + [EndToken];
    return Ok(tokens);
  }

  lemma PrependTwice(a: seq<Token>, b: seq<Token>, r: Result<seq<Token>, LexError>)
    ensures Prepend(a, Prepend(b, r)) == Prepend(a + b, r)
  {
    if r.Ok? {
      assert a + (b + r.value) == (a + b) + r.value;
    }
  }

  // ---- properties of the token sequence ----

  /** Exactly one end marker, with empty text, and it is last. */
  ghost predicate EndsWithOneMarker(ts: seq<Token>)
  {
    |ts| >= 1 && ts[|ts| - 1] == EndToken &&
    forall i :: 0 <= i < |ts| - 1 ==> ts[i].kind != ENDMARKER
  }

  lemma {:induction false} LexFromEndsWithOneMarker(c: string, start: nat)
    ensures LexFrom(c, start).Ok? ==> EndsWithOneMarker(LexFrom(c, start).value)
    decreases if start <= |c| then |c| - start else 0
  {
    if start < |c| {
      var s := Step(c, start);
      if s.Skip? {
        LexFromEndsWithOneMarker(c, s.next);
      } else if s.Emit? {
        LexFromEndsWithOneMarker(c, s.next);
        StepEmitsNoMarker(c, start);
        PrependKeepsOneMarker(s.token, LexFrom(c, s.next));
      }
    }
  }

  /** No step of the scanner emits an end marker. */
  lemma StepEmitsNoMarker(c: string, start: nat)
    requires start < |c|
    ensures Step(c, start).Emit? ==> Step(c, start).token.kind != ENDMARKER
  {
  }

  /** Putting an ordinary token in front keeps exactly one end marker, at the end. */
  lemma PrependKeepsOneMarker(t: Token, r: Result<seq<Token>, LexError>)
    requires t.kind != ENDMARKER
    requires r.Ok? ==> EndsWithOneMarker(r.value)
    ensures Prepend([t], r).Ok? ==> EndsWithOneMarker(Prepend([t], r).value)
  {
    if r.Ok? {
      var ts := [t] + r.value;
      assert forall i :: 1 <= i < |ts| - 1 ==> ts[i] == r.value[i - 1];
    }
  }

  /** Every successful tokenization ends with exactly one end marker with empty text. */
  lemma LexEndsWithOneMarker(c: string)
    ensures Lex(c).Ok? ==> EndsWithOneMarker(Lex(c).value)
  {
    LexFromEndsWithOneMarker(c, 0);
  }

  /** Empty input gives just the end marker. */
  lemma LexEmpty()
    ensures Lex("") == Ok([EndToken])
  {
  }

  /** Blanks and backslashes emit nothing: tokenizing resumes at the next character. */
  lemma LexSkipsBlank(c: string, i: nat)
    requires i < |c| && IsBlank(c[i])
    ensures LexFrom(c, i) == LexFrom(c, i + 1)
  {
  }

  /** The first token after a comment marker runs to the next newline, exclusive, or the end. */
  lemma LexComment(c: string, i: nat)
    requires i < |c| && c[i] == '#'
    ensures var s := Step(c, i);
      && s.Emit? && s.token.kind == COMMENT
      && s.token.text == c[i..s.next]
      && '\n' !in s.token.text
      && (s.next == |c| || c[s.next] == '\n')
  {
    var s := Step(c, i);
    assert forall k :: 0 <= k < |s.token.text| ==> s.token.text[k] == c[i + k];
  }

  /** A one-quote string is the text up to the next same quote, without escapes. */
  lemma LexLineString(c: string, i: nat)
    requires i < |c| && IsQuote(c[i])
    requires !(i + 2 < |c| && c[i + 1] == c[i] && c[i + 2] == c[i])
    ensures var s := Step(c, i);
      && s.Emit? && s.token.kind == STRING
      && c[i] !in s.token.text
      && s.token.text == c[i + 1..s.next - 1]
      && (s.next - 1 == |c| || c[s.next - 1] == c[i])
  {
    var s := Step(c, i);
    var e := ScanWhile(c, i + 1, NotChar(c[i]));
    assert s.next == e + 1;
    assert forall k :: 0 <= k < |s.token.text| ==> s.token.text[k] == c[i + 1 + k];
  }

  /** A triple-quoted string is the text between the delimiters, newlines included. */
  lemma LexBlockString(c: string, i: nat)
    requires i + 2 < |c| && IsQuote(c[i]) && c[i + 1] == c[i] && c[i + 2] == c[i]
    ensures Step(c, i).Emit? && Step(c, i).token.kind == STRING
    ensures Step(c, i).next >= i + 6
    ensures Step(c, i).token.text == c[i + 3..Step(c, i).next - 3]
    ensures Step(c, i).next <= |c| ==> TripleAt(c, c[i], Step(c, i).next - 3)
    ensures forall k :: i + 3 <= k < Step(c, i).next - 3 ==> !TripleAt(c, c[i], k)
  {
  }

  /** Names and numbers are maximal runs. */
  lemma LexNameOrNumber(c: string, i: nat)
    requires i < |c| && (IsNameStart(c[i]) || IsDigit(c[i]))
    ensures var s := Step(c, i);
      && s.Emit? && s.token.text == c[i..s.next]
      && (if IsNameStart(c[i]) then
            s.token.kind == NAME && (forall k :: i < k < s.next ==> IsNameChar(c[k]))
            && (s.next == |c| || !IsNameChar(c[s.next]))
          else
            s.token.kind == NUMBER && AllDigits(s.token.text)
            && (s.next == |c| || !IsDigit(c[s.next])))
  {
    var s := Step(c, i);
    if !IsNameStart(c[i]) {
      assert forall k :: 0 <= k < |s.token.text| ==> s.token.text[k] == c[i + k];
    }
  }

  /** A run that satisfies `keep` and cannot be extended is the one `ScanWhile` finds. */
  lemma ScanWhileEnds(c: string, i: nat, e: nat, keep: char -> bool)
    requires i <= e <= |c|
    requires forall k :: i <= k < e ==> keep(c[k])
    requires e == |c| || !keep(c[e])
    ensures ScanWhile(c, i, keep) == e
  {
  }

  /** A name from `i` to `e` is one token, and tokenizing resumes at `e`. */
  lemma LexName(c: string, i: nat, e: nat)
    requires i < e <= |c| && IsNameStart(c[i])
    requires forall k :: i < k < e ==> IsNameChar(c[k])
    requires e == |c| || !IsNameChar(c[e])
    ensures LexFrom(c, i) == Prepend([Token(NAME, c[i..e])], LexFrom(c, e))
  {
    ScanWhileEnds(c, i + 1, e, IsNameChar);
  }

  /** A one-letter name followed by a blank, or by the end, is one token; tokenizing resumes past the blank. */
  lemma {:induction false} LexLetter(c: string, i: nat)
    requires i < |c| && IsNameStart(c[i])
    requires i + 1 == |c| || IsBlank(c[i + 1])
    ensures LexFrom(c, i) == Prepend([Token(NAME, [c[i]])], LexFrom(c, i + 2))
  {
    assert c[i..i + 1] == [c[i]];
    LexName(c, i, i + 1);
    if i + 1 < |c| {
      LexSkipsBlank(c, i + 1);
    }
  }

  /** A number from `i` to `e` is one token, and tokenizing resumes at `e`. */
  lemma LexNumber(c: string, i: nat, e: nat)
    requires i < e <= |c| && IsDigit(c[i])
    requires forall k :: i < k < e ==> IsDigit(c[k])
    requires e == |c| || !IsDigit(c[e])
    ensures LexFrom(c, i) == Prepend([Token(NUMBER, c[i..e])], LexFrom(c, e))
  {
    ScanWhileEnds(c, i + 1, e, IsDigit);
  }

  /** No longer operator starts with a comma. */
  lemma ReadComma(c: string, i: nat)
    requires i < |c| && c[i] == ','
    ensures ReadOperator(c, i) == (",", i + 1)
  {
    var three := Slice(c, i, i + 3);
    var two := Slice(c, i, i + 2);
    assert forall op :: op in ThreeCharOps ==> op[0] != ',';
    assert forall op :: op in TwoCharOps ==> op[0] != ',';
    assert three != [] && three[0] == ',';
    assert two != [] && two[0] == ',';
    assert c[i..i + 1] == ",";
  }

  /** A comma is a one-character operator, whatever follows it. */
  lemma LexComma(c: string, i: nat)
    requires i < |c| && c[i] == ','
    ensures LexFrom(c, i) == Prepend([Token(OP, ",")], LexFrom(c, i + 1))
  {
    ReadComma(c, i);
    assert IsOpChar(c[i]) && !IsBlank(c[i]) && !IsQuote(c[i]) && !IsNameStart(c[i]) && !IsDigit(c[i]);
    assert Step(c, i) == Emit(Token(OP, ","), i + 1);
  }

  /** A character outside every class is an error, and no tokens are returned. */
  lemma LexUnexpected(c: string, i: nat)
    requires i < |c|
    requires !IsBlank(c[i]) && c[i] != '#' && !IsQuote(c[i]) && !IsNameStart(c[i])
    requires !IsDigit(c[i]) && !IsOpChar(c[i])
    ensures LexFrom(c, i) == Err(UnexpectedCharacter(c[i]))
  {
  }
}
