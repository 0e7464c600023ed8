# farmer, modelled in Dafny

`farmer` generates TypeScript bindings for the Python-like language of a farming
game, and prints programs in that language. The generator reads the game's
`__builtins__.py`: a tokenizer and a PEG-style parser-combinator engine turn it
into enum-like classes and method signatures, and printers turn those into
TypeScript files. This project models that pipeline and proves what each stage
promises.

- **Tokenizer** (`tokenizer.dfy`): the character scan that skips blanks and emits
  comments, strings, names, numbers and longest-match operators, then exactly one
  end marker; an unexpected character is an error. The loop-based `Tokenize` method
  is proved equal to the recursive specification `Lex`.
- **The engine** (`streams.dfy`, `merge.dfy`, `base.dfy`, `typescan.dfy`,
  `tokenparsers.dfy`): a cursor stream; a parse stream with an `eager` (cut) flag
  whose `try` backtracks or raises a syntax error; the `merge` rule sequencing uses;
  the combinators as a datatype `Parser`, specified by the function `Eval` and
  interpreted on the mutable stream by the method `Run`, which is proved to do
  exactly what `Eval` says. Both take the merge `and` uses as a parameter: the
  merge as written, which loses the object marker, or the corrected one. A syntax error is the outcome `Fatal`; a `many` whose
  parser succeeds without moving never returns, and that is the outcome `Diverge`.
  `base_laws.dfy` proves the combinator contracts, `base_scenarios.dfy` the
  engine's test cases.
- **The older engine** (`combinators.dfy`, `combinators_laws.dfy`): the token-only
  library with `then`/`ignoreThen`/`thenIgnore`, `concat`, and a stream that is done
  at the end marker.
- **The builtins grammar and `parseAST`** (`ast.dfy`, `ast_laws.dfy`,
  `ast_scenarios.dfy`): imports, enum-like classes, assignments and methods, and the
  driver's `while (true)` loops, as a function `DriverWith` and as methods on the
  stream, both parameterised by the corrections of "## Findings" (none as written).
- **Defaults** (`defaults.dfy`): a parameter's default from the `constant` parser
  through `mapDefault` to the printer's truthiness tests.
- **`parseBuiltins` and its string helpers** (`names.dfy`, `builtins.dfy`): Python
  type names to TypeScript names, enum keys, camelCase, defaults, the import table
  `registerImports` fills, and the generated files.
- **Printers** (`printutil.dfy`, `typescript.dfy`, `print.dfy`): `indent` and the
  greedy `wrap`; the TypeScript templates and their 80-column layout rule; the
  Python value printer.
- **The grid walk** (`grid.dfy`): `traverseGrid`, proved equal to a closed form of
  the boustrophedon walk on a torus.
- **The Elm-style layer** (`elm.dfy`, `elmimpl.dfy`): parser steps with a
  `committed` flag, dead-end bags and `bagToList`; the row/column stream and its two
  `take` operations over UTF-16 code units.

`wrappers.dfy` holds `Option` and `Result`; `strings.dfy` holds split, join, digit
and sorting helpers with their laws.

## Model

| member | source | states |
|---|---|---|
| Tokenizer.ReadOperator | src/parser/tokenizer.ts:53-68 | longest operator first: three characters exactly when the three-character slice is in the table, two when it is not but the two-character slice is, else one; the end is the start plus the operator's length and the text is the slice there |
| Tokenizer.ScanWhile | src/parser/tokenizer.ts:126-129 | the scan ends at the first character (from `i`) failing the class, or at the end of the text; every character before it is in the class |
| Tokenizer.TripleEnd | src/parser/tokenizer.ts:102-110 | the body of a triple-quoted string ends at the first closing triple quote, or where fewer than three characters remain |
| Tokenizer.Step | src/parser/tokenizer.ts:73-152 | every pass of the loop that does not fail moves the start forward |
| Tokenizer.ScanRun | src/parser/tokenizer.ts:126-129 | the character-class loop ends where the maximal run ends |
| Tokenizer.ScanTriple | src/parser/tokenizer.ts:103-110 | the closing-quote loop ends where the triple-quoted body ends |
| Tokenizer.ScanToken | src/parser/tokenizer.ts:74-152 | one pass of the loop body skips, emits or fails exactly as the single-step specification says |
| Tokenizer.Tokenize | src/parser/tokenizer.ts:70-160 | the generator loop, collected, yields exactly the tokens of the recursive tokenization, or its "Unexpected character" error |
| Tokenizer.Lex | src/parser/tokenizer.ts:70-160 | the recursive tokenization `Tokenize` is proved equal to; every success ends with exactly one end marker, with empty text |
| Tokenizer.LexFromEndsWithOneMarker | src/parser/tokenizer.ts:155 | the tokens from any position end with exactly one end marker, with empty text, and no end marker before it |
| Tokenizer.LexEndsWithOneMarker | src/parser/tokenizer.ts:155-160 | every successful tokenization ends with exactly one end marker with empty text |
| Tokenizer.LexEmpty | src/parser/tokenizer.test.ts:52-56 | the empty text tokenizes to the end marker alone |
| Tokenizer.LexSkipsBlank | src/parser/tokenizer.ts:77-83 | space, newline, tab and backslash emit no token: tokenizing resumes at the next character |
| Tokenizer.LexComment | src/parser/tokenizer.ts:84-91 | a comment token runs from `#` up to, not including, the next newline (or to the end) |
| Tokenizer.LexLineString | src/parser/tokenizer.ts:113-120 | a one-quote string is the text up to the next same quote, with no escapes, and scanning resumes after that quote |
| Tokenizer.LexBlockString | src/parser/tokenizer.ts:97-112 | a triple-quoted string is the text between the delimiters, newlines included, with no closing triple inside it |
| Tokenizer.LexNameOrNumber | src/parser/tokenizer.ts:125-143 | names and numbers are maximal runs of their character classes |
| Tokenizer.ScanWhileEnds | src/parser/tokenizer.ts:126-129 | a run of the class from `i` up to a character outside it, or to the end, is scanned up to exactly there |
| Tokenizer.LexName | src/parser/tokenizer.ts:125-133 | a name from `i` to the end of its run is one NAME token with that text, and tokenizing resumes at the run's end |
| Tokenizer.LexLetter | src/parser/tokenizer.ts:125-133 | a one-letter name followed by a blank, or by the end, is one NAME token, and tokenizing resumes after the blank |
| Tokenizer.LexNumber | src/parser/tokenizer.ts:135-143 | a digit run from `i` is one NUMBER token with that text, and tokenizing resumes at the run's end |
| Tokenizer.ReadComma | src/parser/tokenizer.ts:53-68 | no two- or three-character operator starts with a comma, so the comma is read alone |
| Tokenizer.LexComma | src/parser/tokenizer.ts:145-150 | a comma is one OP token `,`, and tokenizing resumes right after it |
| Tokenizer.LexUnexpected | src/parser/tokenizer.ts:152 | a character outside every class is an "Unexpected character" error, and no tokens are returned |
| Merging.Contribution | src/parser/merge.ts:52-62 | an array operand contributes its elements to the flat list, any other operand contributes itself |
| Merging.MergeWith | src/parser/merge.ts:31-65 | the five cases of `merge`: a dropped left gives the right; a dropped right gives the left; two tagged objects give the union of their keys, the right value winning on a shared key; a tagged left absorbs an untagged right; otherwise a flat list of length (length of a, or 1) + (length of b, or 1) with the left's contribution first |
| Merging.MergeAsWritten | src/parser/merge.ts:40-45 | `merge` as written: the union of two marked objects is an object without the marker |
| Merging.Merge | src/parser/merge.ts:31-65 | `merge` as the `Merge` type describes it: the union of two marked objects keeps the marker |
| Merging.MergeAsWrittenSplitsThreeFields | src/parser/base.ts:104-107 | as written, three named fields merged in turn give a two-element list (an untagged two-field object, then the third), not one object; the corrected `Merge` gives one tagged object with all three fields |
| Merging.MergeAssociative | src/parser/merge.ts:31-65 | the corrected merge is associative over named fields and dropped values, and over values none of which is a marked object |
| Merging.MergeAsWrittenPlainAssociative | src/parser/merge.ts:31-65 | the merge as written is associative over values none of which is a marked object |
| Merging.MergeAsWrittenNotAssociative | src/parser/merge.ts:40-45 | the merge as written is not associative over three marked one-field objects: grouped from the right the first object absorbs the unmarked rest and comes back alone, grouped from the left it does not |
| Merging.MergeAllNamed | src/parser/base.ts:266 | a chain of sequenced named fields and dropped values gives one tagged object holding every field (later keys winning), or the drop marker when all were dropped |
| Merging.NoFieldsWhenDropped | src/parser/merge.ts:32-38 | dropped values contribute no fields |
| Streams.At | src/parser/stream.ts:18-20 | reading at an index past the end gives nothing (`undefined`), otherwise the element there |
| Streams.Stream.constructor | src/parser/stream.ts:5-8 | a new stream holds the content and starts at offset 0 |
| Streams.Stream.Peek | src/parser/stream.ts:18-20 | `peek` is the element at the offset, and reading it changes nothing |
| Streams.Stream.Next | src/parser/stream.ts:22-26 | `next` returns what `peek` returned and moves the offset forward by exactly one, even at the end |
| Streams.Stream.Seek | src/parser/stream.ts:28-30 | `seek(i)` sets the offset to `i` and changes nothing else |
| Streams.Stream.Error | src/parser/stream.ts:14-16 | the syntax error carries the current offset and the element found there |
| Base.ParseStream.constructor | src/parser/base.ts:26-29 | a new parse stream is at offset 0 over the given tokens and is not eager |
| Base.ParseStream.Backtrack | src/parser/base.ts:35-41 | `backtrack(matched)` raises a syntax error when the stream is eager and input was matched, and otherwise puts the offset back to where `try` was entered and returns `failure(matched)` |
| Base.Eval | src/parser/base.ts:77-459 | no combinator ever moves the offset backwards past its starting point or beyond the end, or clears the eager flag; `and` combines its values with the merge `keepTag` selects, as written (`false`) or corrected (`true`) |
| Base.ManyLoop | src/parser/base.ts:375-387 | the `many` loop never fails, and its list starts with the values already collected |
| Base.Run | src/parser/base.ts:68-72 | running a parser on the mutable stream returns exactly the outcome the specification gives and leaves exactly its offset and eager flag |
| Base.RunMatch | src/parser/parser.ts:22-38 | the token parser on the mutable stream does what the specification of `token` says |
| Base.RunAnd | src/parser/base.ts:255-269 | sequencing on the mutable stream does what the specification of `and` says, under the merge selected |
| Base.RunMany | src/parser/base.ts:375-387 | the `while (true)` loop of `many` does what the specification says, returning `Diverge` where the source would spin forever |
| Base.Parse | src/parser/base.ts:68-72 | parsing a token list starts a fresh stream at offset 0, not eager |
| BaseLaws.MatchContract | src/parser/parser.ts:26-36 | `token` fails unmatched without consuming when the stream is done; otherwise it succeeds iff the type is equal and the value is absent, empty or equal, taking exactly one token; a mismatch leaves the state as it was, under either merge |
| BaseLaws.AndContract | src/parser/base.ts:255-269 | `and`: a first failure passes on its `matched` with the offset restored; a second failure is `failure(true)` with the offset restored; either is fatal when the stream is eager and input was matched; success merges the two values with the merge selected, as written or corrected |
| BaseLaws.AndSecondPart | src/parser/base.ts:255-269 | once the first parser succeeded, a failure of the second backtracks to the start as a matched failure and a success merges the two values with the merge selected |
| BaseLaws.AndSecondFails | src/parser/base.ts:259-264 | a failure of the second part after a success of the first is the stream's backtrack with `matched` set |
| BaseLaws.AndBothSucceed | src/parser/base.ts:265-266 | two successes give the merge of the two values and the second part's state |
| BaseLaws.MapContract | src/parser/base.ts:77-85 | `map` passes failures through unchanged and transforms only a success's value, under either merge |
| BaseLaws.IfContract | src/parser/base.ts:136-147 | `if` with a false predicate gives `failure(true)` and leaves the offset where the inner parser put it; otherwise the inner result, under either merge |
| BaseLaws.MaybeContract | src/parser/base.ts:360-368 | `maybe` never fails: a failure becomes a `null` success, under either merge |
| BaseLaws.CommitContract | src/parser/base.ts:447-459 | `commit` makes the stream eager on success, is fatal on a matched failure, and passes an unmatched failure through, under either merge |
| BaseLaws.LookaheadContract | src/parser/base.ts:415-440 | the lookaheads of `with` and `without` always restore the offset; that of `without` succeeds iff its parser fails, under either merge |
| BaseLaws.WithoutContract | src/parser/base.ts:415-440 | `p.without(q)` succeeds iff `p` does and `q` then fails, with `p`'s value and end offset, under either merge |
| BaseLaws.WithContract | src/parser/base.ts:415-440 | `p.with(q)` succeeds iff `p` and then `q` succeed, with `p`'s value and end offset: the lookahead takes nothing, under either merge |
| BaseLaws.FailureRestoresOffset | src/parser/base.ts:31-43 | without `if`, every failure leaves the offset where it started, under either merge |
| BaseLaws.IfLeavesOffsetAdvanced | src/parser/base.ts:142-144 | a value rejected by `if` leaves the token it consumed consumed, under either merge |
| BaseLaws.OrFallsThrough | src/parser/base.ts:154-162 | when the first alternative fails, `or` is the second alternative run from the same offset, under either merge |
| BaseLaws.OrFirstSuccess | src/parser/base.ts:156-159 | `or` returns the first alternative's success untouched, under either merge |
| BaseLaws.AndMaybe | src/parser/base.ts:255-269 | after a success an optional second part never makes the sequence fail, and agrees with the plain sequence when it matches, under either merge |
| BaseLaws.ManyLoopCollects | src/parser/base.ts:378-384 | the loop of `many` collects, in order, the values of successive successes until the first failure, under either merge |
| BaseLaws.ManyCollects | src/parser/base.ts:375-387 | `many` collects the values of its parser's successive successes in order, stops at the first failure, and ends in the state that failure left, under either merge |
| BaseLaws.ManyNeverFails | src/parser/base.ts:375-387 | `many` never fails, under either merge |
| BaseLaws.ConsumesAdvances | src/parser/parser.ts:30-34 | a parser built to consume always moves the offset forward when it succeeds |
| BaseLaws.NoDivergence | src/parser/base.ts:378-384 | a parser whose every `many` repeats a consuming parser never spins forever |
| BaseLaws.ManyNoDivergence | src/parser/base.ts:378-384 | the loop of `many` over a consuming parser always ends |
| BaseLaws.MergeOnlyChangesValues | src/parser/merge.ts:40-45 | the choice of merge changes only values: for a parser without `if`, the outcome's kind, the offset and the eager flag are the same as written and corrected |
| BaseLaws.ManyLoopOnlyChangesValues | src/parser/base.ts:375-387 | the same for the loop of `many`, which collects as many values under either merge |
| BaseScenarios.From | src/parser/base.test.ts:5-6 | a test stream of characters is one name token per character |
| BaseScenarios.AndBacktracks | src/parser/base.test.ts:17-25 | `a` then `b` on "ac" fails matched and the offset is back at 0, under either merge |
| BaseScenarios.OrFallsBack | src/parser/base.test.ts:27-37 | `a` or `b` on "b" gives "b" at offset 1, under either merge |
| BaseScenarios.MaybeIsNoOp | src/parser/base.test.ts:39-47 | `maybe(a)` on "b" succeeds with null at offset 0, under either merge |
| BaseScenarios.ManyUntilMiss | src/parser/base.test.ts:49-60 | `many(a)` on "aab" gives ["a", "a"] at offset 2, under either merge |
| BaseScenarios.SomeNeedsOne | src/parser/base.test.ts:62-69 | `some(a)` on "b" fails at offset 0, under either merge |
| BaseScenarios.JoinPairTaken | src/parser/base.ts:405-408 | in a join, `, a` after the first item is taken with the separator dropped, under either merge |
| BaseScenarios.JoinPairGivenBack | src/parser/base.ts:405-408 | in a join, `, b` fails after taking the separator, and the sequence gives the separator back, under either merge |
| BaseScenarios.JoinDropsSeparators | src/parser/base.test.ts:71-82 | joining `a` by `,` on "a,a,b" gives ["a", "a"] at offset 3, under either merge |
| BaseScenarios.WithLooksAhead | src/parser/base.test.ts:84-102 | `a.with(b)` on "ab" gives "a" at offset 1, and `b` then reads the `b`, under either merge |
| BaseScenarios.WithoutRejects | src/parser/base.test.ts:104-116 | `a.without(b)` fails on "ab" at offset 0 and gives "a" on "ac" at offset 1, under either merge |
| BaseScenarios.CommitSurfacesError | src/parser/base.test.ts:118-123 | after a commit, a later failure in the same sequence is a syntax error even with another alternative left, under either merge |
| BaseScenarios.CommittedAlternationFirst | src/parser/base.test.ts:125-131 | `a ~ b or c ~ d` accepts "ab", under either merge |
| BaseScenarios.CommittedAlternationSecond | src/parser/base.test.ts:132 | `a ~ b or c ~ d` accepts "cd", under either merge |
| BaseScenarios.CommittedAlternationError | src/parser/base.test.ts:133 | `a ~ b or c ~ d` raises a syntax error on "ad", under either merge |
| BaseScenarios.NestedAccepts | src/parser/base.test.ts:156-157 | the nested alternation accepts "abc" and "ad", under either merge |
| BaseScenarios.NestedAcceptsEfgi | src/parser/base.test.ts:161 | the nested alternation accepts "efgi", under either merge |
| BaseScenarios.NestedAcceptsEhi | src/parser/base.test.ts:163 | the nested alternation accepts "ehi", under either merge |
| BaseScenarios.NestedAcceptsJ | src/parser/base.test.ts:164 | the nested alternation accepts "j", under either merge |
| BaseScenarios.NestedRejectsAbd | src/parser/base.test.ts:158 | the nested alternation raises a syntax error on "abd", under either merge |
| BaseScenarios.NestedRejectsAb | src/parser/base.test.ts:159 | the nested alternation raises a syntax error on "ab", under either merge |
| BaseScenarios.NestedRejectsAe | src/parser/base.test.ts:160 | the nested alternation raises a syntax error on "ae", under either merge |
| BaseScenarios.NestedRejectsEfi | src/parser/base.test.ts:162 | the nested alternation raises a syntax error on "efi", under either merge |
| TokenParsers.NewTokenStream | src/parser/parser.ts:6-10 | a token stream over a text is a fresh parse stream at offset 0, not eager, over exactly the tokens of that text; a lexing error is thrown instead |
| TokenParsers.ParseText | src/parser/parser.ts:17-19 | parsing a text parses its tokens from offset 0, not eager, with `and` merging by the merge passed (`false` is src/parser/merge.ts as written, which parser.ts runs); a lexing error is thrown instead |
| TokenParsers.TokenContract | src/parser/parser.ts:26-36 | `token(type, value)` succeeds, taking exactly one token, iff there is a token of that type whose text equals the value when one is given and non-empty; otherwise it fails unmatched and leaves the state alone, under either merge |
| TokenParsers.TextParsersContract | src/parser/parser.ts:47-54 | `name`, `op` and `string` give the matched token's text, under either merge |
| TokenParsers.NumberContract | src/parser/parser.ts:44-45 | `number` gives the decimal value of the digits of a number token, for any run of digits, leading zeros included, under either merge |
| TokenParsers.NumberReadsBack | src/parser/parser.ts:44-45 | the decimal digits of `n` read back as `n`, under either merge |
| TokenParsers.NumberLeadingZeros | src/parser/parser.ts:44-45 | `0012` reads as 12, as `parseInt` does, under either merge |
| TokenParsers.EmptyValueMatchesAny | src/parser/parser.ts:32 | an empty value matches every token of the type, as `!value` does |
| TokenParsers.ConstantShape | src/parser/parser.ts:56-63 | `constant` is the left fold of `or` over `None`, `True`, `False`, number and string, in that order |
| TokenParsers.Constant | src/parser/parser.ts:56-63 | the `constant` parser; ConstantShape gives its alternatives and ConstantContract what it reads |
| TokenParsers.OrTakesFirst | src/parser/base.ts:156-159 | `or` returns the first alternative's success, under either merge |
| TokenParsers.OrTriesNext | src/parser/base.ts:160 | after an unmatched failure that left the state alone, `or` is its second alternative, under either merge |
| TokenParsers.ConstantAlternatives | src/parser/parser.ts:58-62 | each alternative of `constant` takes the next token exactly when it is its kind (and text), with null, true, false, the number or the string text, under either merge |
| TokenParsers.ConstantContract | src/parser/parser.ts:56-63 | `constant` takes one token when it is `None`, `True`, `False`, a number or a string, giving null, true, false, the number or the text, and otherwise fails leaving the state alone, under either merge |
| TypeScan.NextDepth | src/parser/ast.ts:15-20 | an opening bracket adds one to the depth, a closing one takes one off but never below 0, anything else leaves it |
| TypeScan.ScanFrom | src/parser/ast.ts:13-31 | the scan consumes consecutive tokens, records exactly their texts, keeps the depth non-negative, and ends at the end or before a token it stops at |
| TypeScan.ScanTypes | src/parser/ast.ts:6-39 | the loop of `typeParser` fails, with the offset restored, when it took no token, and otherwise gives the taken texts glued together without separators and ends where the scan ends |
| TypeScan.ScanStops | src/parser/ast.ts:13-27 | a scan ends at the end of the stream, before a string at depth 0, or before a stop operator with depth 0 after it |
| Combinators.Concat | src/parser/combinators.ts:95-103 | `concat` flattens array operands one level, the left's items first, and wraps other operands as one element each |
| Combinators.ConcatAssociative | src/parser/combinators.ts:95-103 | concatenating three values gives the same flat list however it is grouped |
| Combinators.Eval | src/parser/combinators.ts:120-308 | a normal result never moves the cursor back, past the end marker, or clears the eager flag |
| Combinators.ManyLoop | src/parser/combinators.ts:226-238 | the `many` loop never fails and keeps the values already collected at the front of its list |
| Combinators.TokenStream.constructor | src/parser/combinators.ts:28-32 | a new token stream holds the tokens, at offset 0, not eager |
| Combinators.TokenStream.Peek | src/parser/combinators.ts:38-40 | `peek` is the token at the offset, nothing past the end |
| Combinators.TokenStream.Next | src/parser/combinators.ts:42-46 | `next` returns what `peek` returned and moves the offset forward by one |
| Combinators.TokenStream.Backtrack | src/parser/combinators.ts:59-66 | `backtrack(matched)` is fatal when eager and matched, and otherwise restores the offset and returns `failure(matched)` |
| Combinators.Open | src/parser/combinators.ts:28-32 | `new TokenStream(content)` tokenizes the text (a lexing error is thrown) and starts at offset 0, not eager |
| Combinators.Run | src/parser/combinators.ts:114-118 | running a parser on the mutable stream returns exactly the specified outcome and leaves exactly the specified offset and eager flag |
| Combinators.RunSeq | src/parser/combinators.ts:156-204 | `then`, `ignoreThen` and `thenIgnore` on the mutable stream do what their specification says |
| Combinators.RunMany | src/parser/combinators.ts:226-238 | the `while (true)` loop of `many` does what the specification says, returning `Diverge` where the source would spin forever |
| Combinators.ParseText | src/parser/combinators.ts:112-118 | parsing a text runs the parser over its tokens, which end in one end marker, from offset 0, not eager |
| CombinatorsLaws.TokenContract | src/parser/combinators.ts:121-134 | `token(type)` takes the next token iff it has that type and is not the end marker (`done()` is true there); otherwise it fails unmatched leaving the state alone |
| CombinatorsLaws.SeqValues | src/parser/combinators.ts:156-204 | a successful `then` gives the flat concatenation of both values, `thenIgnore` the left value and `ignoreThen` the right one |
| CombinatorsLaws.FailureRestoresOffset | src/parser/combinators.ts:56-68 | every failure leaves the offset where it started |
| CombinatorsLaws.ManyNeverFails | src/parser/combinators.ts:226-238 | `many` never fails and its value is a list |
| CombinatorsLaws.SomeNeedsOne | src/parser/combinators.ts:245-247 | `some` fails with its parser's `matched` and the offset restored when its parser fails (fatal when eager and matched) |
| CombinatorsLaws.Letters | src/parser/combinators.test.ts:134-175 | the tokens a letters test stands for: one name token per letter, then the end marker; LexSpacedText and LexSpaced prove they are what the spaced-out text tokenizes to |
| CombinatorsLaws.Spaced | src/parser/combinators.test.ts:140-174 | the text of a letters test, its letters with one space between each two: one character per letter and one per gap |
| CombinatorsLaws.SpacedLetter | src/parser/combinators.test.ts:140-174 | in that text the `k`-th letter sits at `2k`, followed by a space unless it is the last |
| CombinatorsLaws.LexSpacedFrom | src/parser/tokenizer.ts:70-160 | from the `k`-th letter on, a text with the letters of `s` at the even positions, each followed by a space or the end, tokenizes to the name tokens of the remaining letters, then the end marker |
| CombinatorsLaws.LettersFrom | src/parser/combinators.test.ts:134-175 | the tokens from the `k`-th letter on are its name token followed by those from the next letter |
| CombinatorsLaws.LexSpacedText | src/parser/tokenizer.ts:70-160 | such a text tokenizes to exactly the letters' name tokens and the end marker |
| CombinatorsLaws.LexSpaced | src/parser/tokenizer.ts:70-160 | letters separated by single spaces tokenize to one name token each, then the end marker |
| CombinatorsLaws.LexOneName | src/parser/tokenizer.ts:125-133 | a text that is one name tokenizes to that name token and the end marker |
| CombinatorsLaws.LexTwoNames | src/parser/tokenizer.ts:70-160 | a name, a blank and a name tokenize to the two name tokens and the end marker |
| CombinatorsLaws.LexNameComma | src/parser/tokenizer.ts:70-160 | a name then a comma tokenize to the name token, the `,` operator and the end marker |
| CombinatorsLaws.LexCommaLetter | src/parser/tokenizer.ts:125-150 | a comma then a one-letter name (followed by a comma or the end) put the `,` operator and the name token in front of what follows |
| CombinatorsLaws.LexCommaLettersTail | src/parser/tokenizer.ts:125-150 | after the first of three comma-separated letters, the rest tokenizes to comma, name, comma, name, end marker |
| CombinatorsLaws.LexCommaLetters | src/parser/tokenizer.ts:70-160 | three one-letter names separated by commas tokenize to name, comma, name, comma, name, end marker |
| CombinatorsLaws.LexDigitsThenName | src/parser/tokenizer.ts:70-160 | a digit, a blank, a digit, a blank and a name tokenize to two number tokens, the name token and the end marker |
| CombinatorsLaws.LexAlphaBeta | src/parser/combinators.test.ts:23 | "alpha beta" tokenizes to the names `alpha` and `beta`, then the end marker |
| CombinatorsLaws.LexFoo | src/parser/combinators.test.ts:34 | "foo" tokenizes to the name `foo`, then the end marker |
| CombinatorsLaws.LexOneTwoFoo | src/parser/combinators.test.ts:57 | "1 2 foo" tokenizes to the numbers `1` and `2`, the name `foo`, then the end marker |
| CombinatorsLaws.LexCommaABC | src/parser/combinators.test.ts:80 | "a,b,c" tokenizes to `a`, `,`, `b`, `,`, `c`, then the end marker |
| CombinatorsLaws.LexFooComma | src/parser/combinators.test.ts:98 | "foo," tokenizes to the name `foo`, the operator `,`, then the end marker |
| CombinatorsLaws.LexFooBar | src/parser/combinators.test.ts:114 | "foo bar" tokenizes to the names `foo` and `bar`, then the end marker |
| CombinatorsLaws.ThenBacktracks | src/parser/combinators.test.ts:21-30 | "alpha beta" tokenizes to two names, and on those tokens a name then a number fails matched and leaves the offset at 0 |
| CombinatorsLaws.OrFallsBack | src/parser/combinators.test.ts:32-43 | "foo" tokenizes to one name, and on it a number or a name takes the name, offset 1 |
| CombinatorsLaws.ManyUntilMiss | src/parser/combinators.test.ts:56-67 | "1 2 foo" tokenizes to two numbers and a name, and on them `many` collects the two numbers and stops at offset 2, before the name |
| CombinatorsLaws.JoinDropsSeparators | src/parser/combinators.test.ts:78-94 | "a,b,c" tokenizes to three names between two commas, and on them `join` gives a, b, c at offset 5, on the end marker |
| CombinatorsLaws.WithLooksAhead | src/parser/combinators.test.ts:96-109 | "foo," tokenizes to a name and a comma, and on them `with` gives the name at offset 1, where the comma is then read |
| CombinatorsLaws.WithoutRejects | src/parser/combinators.test.ts:111-123 | on the tokens of "foo," `without` fails matched at offset 0, and on those of "foo bar" it gives the name at offset 1 |
| CombinatorsLaws.CommitSurfacesError | src/parser/combinators.test.ts:125-132 | "foo bar" tokenizes to two names, and on them a committed name-then-number that fails after the name is a syntax error |
| CombinatorsLaws.CommittedAlternationAccepts | src/parser/combinators.test.ts:140-142 | "a b" and "c d" tokenize to their letters, and `a ~ b or c ~ d` accepts both |
| CombinatorsLaws.CommittedAlternationError | src/parser/combinators.test.ts:144 | "a d" tokenizes to its letters, and `a ~ b or c ~ d` raises a syntax error on them |
| CombinatorsLaws.NestedAcceptsAbc | src/parser/combinators.test.ts:158 | "a b c" tokenizes to its letters, and the nested alternation accepts them |
| CombinatorsLaws.NestedAcceptsAd | src/parser/combinators.test.ts:160 | "a d" tokenizes to its letters, and the nested alternation accepts them |
| CombinatorsLaws.NestedAcceptsEfgi | src/parser/combinators.test.ts:168 | "e f g i" tokenizes to its letters, and the nested alternation accepts them |
| CombinatorsLaws.NestedAcceptsEhi | src/parser/combinators.test.ts:172 | "e h i" tokenizes to its letters, and the nested alternation accepts them |
| CombinatorsLaws.NestedAcceptsJ | src/parser/combinators.test.ts:174 | "j" tokenizes to its letter, and the nested alternation accepts it |
| CombinatorsLaws.NestedRejectsAbd | src/parser/combinators.test.ts:162 | "a b d" tokenizes to its letters, and the nested alternation raises a syntax error on them |
| CombinatorsLaws.NestedRejectsAb | src/parser/combinators.test.ts:164 | "a b" tokenizes to its letters, and the nested alternation raises a syntax error on them |
| CombinatorsLaws.NestedRejectsAe | src/parser/combinators.test.ts:166 | "a e" tokenizes to its letters, and the nested alternation raises a syntax error on them |
| CombinatorsLaws.NestedRejectsEfi | src/parser/combinators.test.ts:170 | "e f i" tokenizes to its letters, and the nested alternation raises a syntax error on them |
| Ast.EnumParser | src/parser/ast.ts:48-61 | the enum parser as written, its items unguarded; EnumWellFormed, EnumHead and AstScenarios.PairFirstEnumThrows state what it does |
| Ast.GuardedEnumItem | src/parser/ast.ts:53-61 | the corrected enum item: it runs only at a name other than `class` or `def` (AstLaws.GuardStops, AstLaws.GuardPasses) |
| Ast.MethodParser | src/parser/ast.ts:65-98 | the method parser; MethodWellFormed, MethodStartsWithDef and AstScenarios.SampleMethod state what it does |
| Ast.GuardedParam | src/parser/ast.ts:72-83 | the corrected parameter: it runs only where a `**`, a `*` or a name comes (AstLaws.ParamGuardStops, AstLaws.ParamGuardPasses) |
| Ast.MethodParserWith | src/parser/ast.ts:65-98 | the method parser with its parameters guarded or not; AstLaws.MethodHeadIsDef, AstLaws.MethodWellFormed and AstScenarios.BareMethodReads state what it does |
| Ast.Spread | src/parser/ast.ts:80-83 | a spread of a list puts each element under its decimal index, and every key is a digit string |
| Ast.WithDefault | src/parser/ast.ts:80-83 | the spread-with-default keeps every field of the parsed object and its value, and adds the key with the default exactly when it was missing; the result is an untagged object |
| Ast.OrEmpty | src/parser/ast.ts:86 | a missing parameter list (`null`) becomes the empty array; any other value is kept |
| Ast.Loop | src/parser/ast.ts:127-136 | a declaration loop only appends: the values it returns start with the values collected before it |
| Ast.DriverWith | src/parser/ast.ts:108-173 | `parseAST` with the corrections `fx` names: a result always holds at least one enum-like class, and with none the driver throws |
| Ast.AfterEnums | src/parser/ast.ts:141-172 | the assignment and method loops and the end marker return exactly the enums read before them |
| Ast.AfterAssignments | src/parser/ast.ts:158-172 | the method loop and the end marker return exactly the enums they were given |
| Ast.DriverAsWritten | src/parser/ast.ts:108-173 | `parseAST` as written: no reset of the eager flag, the marker-losing merge, unguarded enum items and unguarded parameters (AstLaws.AsWrittenNeverParsesMethods, AstScenarios.PairUnguardedThrows, AstScenarios.EmptyParamsThrow) |
| Ast.Driver | src/parser/ast.ts:108-173 | `parseAST` with the four corrections of "## Findings" (AstScenarios.DriverReadsSample, AstScenarios.DriverReadsPair, AstScenarios.BareMethodReads) |
| Ast.ParseOrThrow | src/parser/ast.ts:113-121 | on a stream, `parseOrThrow` gives the parser's value and leaves the stream where the parse ended, or throws the error at the offset the failure left (or the syntax error raised inside); with `reset` false the eager flag is left as it was, as written, and with `reset` true it is cleared first (Findings row 2) |
| Ast.CollectLoop | src/parser/ast.ts:127-136 | the imperative `while (true)` loop on the stream collects exactly the values of the loop function under the same corrections, and leaves the stream where that round began, or throws what it throws |
| Ast.LoopRound | src/parser/ast.ts:128-135 | one round of the `while (true)` loop on the stream: the comments' `parseOrThrow` error, or else the outcome `Eval` gives the item from where the comments ended, with the eager flag cleared first when `reset` is set |
| Ast.ParseAst | src/parser/ast.ts:108-173 | `parseAST` fails with the tokenizer's error when lexing fails, and otherwise returns the enums and methods of the driver with the corrections `fx` names (none as written) or throws its error |
| Ast.ParseDeclarations | src/parser/ast.ts:112-140 | on a fresh stream, the comments, imports and enums steps throw what the driver with the same corrections throws, no enum is a syntax error, and the rest agrees with that driver |
| Ast.ParseAfterEnums | src/parser/ast.ts:141-172 | the assignment and method loops and the end marker return the enums with the methods read, or throw what the driver with the same corrections throws |
| AstLaws.CommentsEnd | src/parser/ast.ts:123 | the first position at or after `i` that is not a comment: every token before it is a comment |
| AstLaws.CommentLoop | src/parser/ast.ts:123 | the `many` over comments stops exactly at the first non-comment token, never fails and keeps the eager flag |
| AstLaws.CommentsSkip | src/parser/ast.ts:123 | skipping comments never fails, moves past every comment in a row and leaves the eager flag alone |
| AstLaws.CommittedSuccessIsEager | src/parser/base.ts:447-459 | a parser that begins with `commit` leaves the stream eager whenever it succeeds |
| AstLaws.EagerAndFailure | src/parser/base.ts:255-269 | on an eager stream a sequence fails plainly only when its first part failed without matching; any later failure is a syntax error |
| AstLaws.EagerAssignmentFailure | src/parser/ast.ts:144-151 | on an eager stream the assignment probe fails plainly only where there is no name token |
| AstLaws.HeadSucceeds | src/parser/base.ts:255-269 | a parser succeeds only if the parser it runs first succeeds from the same state |
| AstLaws.MethodStartsWithDef | src/parser/ast.ts:65-66 | a method parse succeeds only at the name `def` |
| AstLaws.GuardStops | src/parser/ast.ts:53-61 | where no enum item can start (no name, or the name `class` or `def`), the guarded item fails without matching and leaves the state alone |
| AstLaws.GuardPasses | src/parser/ast.ts:53-61 | at any other name the guarded item is the item itself |
| AstLaws.MethodHeadIsDef | src/parser/ast.ts:65-66 | the method parser, guarded or not, runs the name `def` first |
| AstLaws.ParamGuardStops | src/parser/ast.ts:72-79 | where no parameter can start (no name, no `*`, no `**`), the guarded parameter fails without matching and leaves the state alone, so an empty list stays empty |
| AstLaws.ParamAtName | src/parser/ast.ts:72-83 | at a name a parameter never fails plainly: it succeeds or is a syntax error |
| AstLaws.ParamGuardPasses | src/parser/ast.ts:72-83 | at a name the guarded parameter is the parameter itself |
| AstLaws.ItemFailureIsMatched | src/parser/ast.ts:53-61 | at a name, an item that fails has matched: the `and` after the name reports `failure(true)` |
| AstLaws.LoopEndsWhereRoundFailed | src/parser/ast.ts:127-136 | a declaration loop gives back the round that failed: it ends at or after where it started, at a point from which the comments and then the item fail plainly |
| AstLaws.LoopKeepsEager | src/parser/ast.ts:127-136 | as written, a loop entered on an eager stream stays eager, and one whose item starts with `commit` is eager after reading anything |
| AstLaws.EagerLoopEnd | src/parser/ast.ts:141-156 | as written, a loop entered on an eager stream ends eager, at a point where the comments succeed |
| AstLaws.AsWrittenNeverParsesMethods | src/parser/ast.ts:141-168 | as written, with the eager flag carried from one top-level parse to the next, `parseAST` never returns a method |
| AstLaws.EnumsLeaveEager | src/parser/ast.ts:127-136 | as written, reading at least one enum leaves the stream eager |
| AstLaws.EagerMethodsAfterAssignments | src/parser/ast.ts:141-168 | as written, after the assignments on an eager stream no method is returned |
| AstLaws.NoMethodHere | src/parser/ast.ts:159-168 | when the first method round fails, no method is returned |
| AstLaws.EofIsLast | src/parser/ast.ts:170 | on tokenizer output, reading the end marker means reaching the end of the tokens |
| AstLaws.AfterAssignmentsReadsToEnd | src/parser/ast.ts:158-172 | on tokenizer output, a result from the method loop onwards has read every token |
| AstLaws.AfterEnumsReadsToEnd | src/parser/ast.ts:141-172 | on tokenizer output, a result from the assignment loop onwards has read every token |
| AstLaws.DriverReadsToEnd | src/parser/ast.ts:108-173 | on tokenizer output, any result of `parseAST` has read every token, the end marker last |
| AstLaws.MapShape | src/parser/base.ts:93-108 | `drop` and `as` change only the value, so they keep a parser free of empty repetition and keep it always taking a token |
| AstLaws.ParamWellFormed | src/parser/ast.ts:72-83 | a parameter always takes a token and repeats nothing that can succeed empty |
| AstLaws.GuardedParamWellFormed | src/parser/ast.ts:72-83 | the guarded parameter always takes a token and repeats nothing that can succeed empty |
| AstLaws.ParamsWellFormed | src/parser/ast.ts:70-87 | the parameter list repeats nothing that can succeed empty |
| AstLaws.MethodWellFormed | src/parser/ast.ts:65-98 | a method always takes a token and repeats nothing that can succeed empty |
| AstLaws.EnumWellFormed | src/parser/ast.ts:48-61 | an enum-like class always takes a token and repeats nothing that can succeed empty |
| AstLaws.GuardedItemWellFormed | src/parser/ast.ts:53-61 | the guarded item always takes a token and repeats nothing that can succeed empty |
| AstLaws.ImportWellFormed | src/parser/ast.ts:41-46 | the repeated import parser takes a token each time |
| AstLaws.AssignmentWellFormed | src/parser/ast.ts:144-151 | an assignment always takes a token and repeats nothing that can succeed empty |
| AstLaws.GrammarWellFormed | src/parser/ast.ts:123-170 | every `many` in the grammar of `parseAST` repeats a parser that always takes a token |
| AstLaws.OrThrowNeverHangs | src/parser/ast.ts:113-121 | `parseOrThrow` of a well-formed parser returns or throws a syntax error; it never spins |
| AstLaws.LoopNeverHangs | src/parser/ast.ts:127-136 | a declaration loop over a well-formed item that always takes a token never spins |
| AstLaws.AfterEnumsNeverHangs | src/parser/ast.ts:141-172 | the assignment and method loops and the end marker never spin |
| AstLaws.DriverNeverHangs | src/parser/ast.ts:108-173 | `parseAST` always returns or throws: none of its loops spins in place |
| AstScenarios.SampleComments | src/parser/ast.ts:123 | on the sample, skipping comments at its start and at its end takes nothing, and at the divider takes exactly that comment |
| AstScenarios.SampleImports | src/parser/ast.ts:124 | the sample has no import: the import `many` stops at once |
| AstScenarios.HeadFails | src/parser/base.ts:255-269 | when the parser that runs first fails without matching, the whole parser fails the same way and leaves the state alone |
| AstScenarios.EnumHead | src/parser/ast.ts:48-66 | an enum starts with the name `class`, a method with `def`, an enum member with any name |
| AstScenarios.EnumPrefixReads | src/parser/ast.ts:49-51 | `class NAME :` gives the name and leaves the stream eager after the colon |
| AstScenarios.EnumReads | src/parser/ast.ts:48-61 | an enum with no members is its name and an empty list of items, marked only under the corrected merge |
| AstScenarios.NoItems | src/parser/ast.ts:53-61 | at a token that is no name, the items stop at once, guarded or not |
| AstScenarios.SampleEnum | src/parser/ast.ts:48-61 | the sample's enum is `A` with no members, guarded or not, ending eager after the colon |
| AstScenarios.SampleNoSecondEnum | src/parser/ast.ts:130-133 | at `def` no second enum starts: the enum parser fails without matching |
| AstScenarios.SampleAssignment | src/parser/ast.ts:144-151 | `def f` probed as an assignment fails plainly on a non-eager stream and is a syntax error on an eager one |
| AstScenarios.SampleParamName | src/parser/ast.ts:73-74 | `x` with no star before it gives the name `x` |
| AstScenarios.SampleParam | src/parser/ast.ts:72-83 | `x` is a parameter named `x` whose type defaults to `Any` |
| AstScenarios.SampleGuardedParam | src/parser/ast.ts:72-83 | `x` is the parameter `x`, guarded or not |
| AstScenarios.SampleNoMoreParams | src/parser/ast.ts:70-71 | no `,` follows `x`, so the repetition of further parameters stops at once |
| AstScenarios.SampleParamList | src/parser/ast.ts:70-84 | the comma-separated list at `x )` is the one parameter `x` |
| AstScenarios.SampleParams | src/parser/ast.ts:70-87 | `x )` is a list of the one parameter `x` |
| AstScenarios.SampleArgs | src/parser/ast.ts:68-90 | `( x )` is the parameter list `[x]` and ends after the closing parenthesis |
| AstScenarios.SampleMethodHead | src/parser/ast.ts:66-67 | `def f` gives the name `f` and leaves the stream eager |
| AstScenarios.SampleNoReturns | src/parser/ast.ts:91 | without `->` the optional return type gives `null` and takes nothing |
| AstScenarios.SampleSignature | src/parser/ast.ts:65-91 | `def f ( x )`: corrected, one object with the name and the parameters; as written, the list of that object unmarked and the `null` of the missing return type |
| AstScenarios.SampleDocumented | src/parser/ast.ts:65-93 | `def f ( x ) : "d"`: corrected, the docstring joins the object; as written, it is appended to the list as a third element |
| AstScenarios.SpreadThree | src/parser/ast.ts:95-98 | spreading a list of three puts its elements under "0", "1" and "2" |
| AstScenarios.SampleMethod | src/parser/ast.ts:65-98 | the sample's method, ending before the end marker: corrected, `f(x)` with docstring `d` and both types `Any`; as written, the object `{0: {name, params}, 1: null, 2: {docstring}, returns: "Any"}` the final spread makes of the list |
| AstScenarios.ReturnsDefaulted | src/parser/ast.ts:95-98 | a documented method without a return type gets the return type `Any` and keeps every other field |
| AstScenarios.NoMethodAt | src/parser/ast.ts:65-66 | where the name `def` is not next, no method starts: the parser fails without matching |
| AstScenarios.SampleNoSecondMethod | src/parser/ast.ts:162-165 | at the end marker no second method starts |
| AstScenarios.SampleEof | src/parser/ast.ts:170 | the end marker is the sample's last token |
| AstScenarios.LoopStops | src/parser/ast.ts:130-133 | a round whose item fails ends the loop with what was collected, back where the round began |
| AstScenarios.LoopGoesOn | src/parser/ast.ts:135 | a round whose item succeeds takes a token, adds its value and goes on from there |
| AstScenarios.LoopThrows | src/parser/ast.ts:128-133 | a round whose item throws ends the loop with an error |
| AstScenarios.LoopOnce | src/parser/ast.ts:127-136 | a loop that reads one item and whose next round fails collects exactly that item |
| AstScenarios.SampleEnumLoop | src/parser/ast.ts:127-136 | the enum loop over the sample collects the one enum `A` and stops at the divider comment, eager as written and not eager with the reset |
| AstScenarios.SampleMethodLoop | src/parser/ast.ts:159-168 | with each parse starting non-eager, the method loop over the sample collects the one method, with the value SampleMethod gives under the merge selected, and stops before the end marker |
| AstScenarios.SampleAssignmentLoop | src/parser/ast.ts:141-156 | the assignment loop over the sample reads nothing when each parse starts non-eager and throws at `def` when the stream is still eager |
| AstScenarios.DriverReadsSample | src/parser/ast.ts:108-173 | with each top-level parse starting non-eager, `parseAST` of the sample gives the enum `A` and the method `f`, valued by the merge selected, and reads every token; without the reset, as written, it throws |
| AstScenarios.PairUnguardedItemThrows | src/parser/ast.ts:53-61 | after `class A: "doc"` on the eager stream, the unguarded items probe `class B` as a member, and the missing `:` is a syntax error |
| AstScenarios.PairFirstEnumThrows | src/parser/ast.ts:48-61 | so the unguarded enum parser throws on two enums in a row |
| AstScenarios.PairUnguardedThrows | src/parser/ast.ts:127-139 | so `parseAST` without the guard throws on two enums in a row, whatever the other corrections |
| AstScenarios.PairEnums | src/parser/ast.ts:48-61 | with the guard, the first enum stops its items at `class B`, and the second is read eager or not |
| AstScenarios.PairEnumLoop | src/parser/ast.ts:127-136 | with the guard, the enum loop reads both enums and stops at the end marker |
| AstScenarios.PairRest | src/parser/ast.ts:141-172 | after those enums, no assignment, no method, and the end marker |
| AstScenarios.DriverReadsPair | src/parser/ast.ts:108-173 | with the guard, `parseAST` of two enums in a row gives both, whatever the other corrections |
| AstScenarios.FatalFirst | src/parser/base.ts:255-269 | a syntax error in the first part of a sequence is the sequence's |
| AstScenarios.FatalSecond | src/parser/base.ts:255-269 | a syntax error in a later part of a sequence is the sequence's |
| AstScenarios.FatalInside | src/parser/base.ts:77-85 | `map` and `maybe` pass a syntax error through |
| AstScenarios.BareParamThrows | src/parser/ast.ts:72-79 | inside a method's commit, a parameter probed at `)` is a syntax error: the optional star succeeds and the name that must follow is missing |
| AstScenarios.EmptyParamsThrow | src/parser/ast.ts:65-98 | as written, a method with an empty parameter list, `def g(): "d" ...`, is a syntax error under either merge (Findings row 4) |
| AstScenarios.BareParams | src/parser/ast.ts:70-87 | with the guard, the parameters of `( )` are the empty list and leave the `)` to be read |
| AstScenarios.BareSignature | src/parser/ast.ts:65-91 | with the guard, `def g ( )` is one object with the name and the empty parameter list |
| AstScenarios.BareMethodReads | src/parser/ast.ts:65-98 | with the guard, `def g(): "d" ...` is the method `g` with no parameters, docstring `d` and return type `Any`, under the merge selected (Findings row 4) |
| PrintUtil.Indent | src/printer/util.ts:26-31 | `indent`; IndentLines, IndentZero and IndentTwice state what it does |
| PrintUtil.Prefixed | src/printer/util.ts:29 | each line gets the prefix in front, and the number of lines is kept |
| PrintUtil.IndentLines | src/printer/util.ts:26-31 | `indent` keeps the number of lines, and each line of the result is the spaces followed by the matching line of the input |
| PrintUtil.IndentZero | src/printer/util.ts:26-31 | indenting by zero changes nothing |
| PrintUtil.IndentTwice | src/printer/util.ts:26-31 | indenting by `a` and then by `b` is indenting by `a + b` |
| PrintUtil.NewlinesToSpaces | src/printer/util.ts:34 | the same string with every newline replaced by a space |
| PrintUtil.JoinLinesWithSpaces | src/printer/util.ts:34 | splitting at newlines and joining with spaces replaces every newline by a space |
| PrintUtil.WrapLines | src/printer/util.ts:33-56 | the lines `wrap` joins; WrapIsWellWrapped, WrapKeepsWords and WrapLinesNoNewline state what they are |
| PrintUtil.WordsIgnoreNewlines | src/printer/util.ts:34 | the words `wrap` fills are the text split at spaces once newlines count as spaces |
| PrintUtil.Wrap | src/printer/util.ts:33-56 | the `for` loop of `wrap` returns its lines joined with newlines |
| PrintUtil.FillWellWrapped | src/printer/util.ts:38-54 | from a greedy loop state, the loop pushes only non-empty lines, a line wider than the width only as a single word, and breaks a line only when the next word would not fit |
| PrintUtil.FillStateStep | src/printer/util.ts:39-49 | one turn of the loop keeps the greedy state |
| PrintUtil.WrapIsWellWrapped | src/printer/util.ts:33-56 | no line of `wrap` is empty, a line wider than the width is a single word, and each break is greedy: the next line's first word would not have fit |
| PrintUtil.FillKeepsTokens | src/printer/util.ts:38-54 | the loop's lines hold the words of the current state followed by the non-empty words still to come |
| PrintUtil.NoNewlineInFill | src/printer/util.ts:38-54 | the loop never puts a newline inside a line |
| PrintUtil.WrapLinesNoNewline | src/printer/util.ts:33-56 | no line of `wrap` holds a newline, so the output's lines are exactly the wrapped lines |
| PrintUtil.WrapKeepsWords | src/printer/util.ts:33-56 | wrapping neither loses, adds nor reorders a word: the output has exactly the input's non-empty words |
| TypeScript.Import | src/printer/typescript.ts:3-14 | an import starts `import ` and ends in `;`, and says `type ` next exactly when it is a type import |
| TypeScript.ImportTypeModifier | src/printer/typescript.ts:3-14 | a type import is the plain import with `type ` inserted after `import ` |
| TypeScript.ImportOneLine | src/printer/typescript.ts:3-14 | with newline-free names and module, an import is one line ending in the quoted module and `;` |
| TypeScript.JoinCommaSpace | src/printer/typescript.ts:13 | joining names with `, ` is joining them with `,` once every name after the first is led by a space |
| TypeScript.JoinCommaSplit | src/printer/typescript.ts:13 | names without a comma, joined with `, `, split back at `,` into the first name and each later name after its space |
| TypeScript.ImportNames | src/printer/typescript.ts:12-13 | an import is `import [type ]{ `, the names joined with `, `, then ` } from "module";`; for names without a comma, splitting the middle part at `,` gives the names back |
| TypeScript.JSDoc | src/printer/typescript.ts:16-23 | a doc comment starts with `/**` and ends with `*/` |
| TypeScript.JSDocLayout | src/printer/typescript.ts:16-23 | a comment that wraps to one line gives a single `/** … */` line; a longer one gives `/**`, one ` * ` line per wrapped line, and ` */` |
| TypeScript.VariableDeclaration | src/printer/typescript.ts:34-46 | the variable template; VariableDocumented and VariableOneLine state its form |
| TypeScript.VariableDocumented | src/printer/typescript.ts:42 | a declaration with a truthy comment is its doc comment, a newline, and the same declaration without the comment |
| TypeScript.VariableOneLine | src/printer/typescript.ts:34-46 | an undocumented declaration of newline-free parts is one line ending in `;`, starting with `export ` iff exported |
| TypeScript.VariableBinds | src/printer/typescript.ts:42-45 | an undocumented declaration is the optional `export `, the kind and a space, then `name = value`, followed only by the optional ` as cast` and `;` |
| TypeScript.AllDestructured | src/printer/typescript.ts:73-77 | one destructured entry per parameter, in order: `name = default` when there is a default, else the name |
| TypeScript.AllTyped | src/printer/typescript.ts:78-82 | one typed member per parameter, in order, optional (`?`) exactly when there is a default |
| TypeScript.AllPositional | src/printer/typescript.ts:86-92 | one positional entry per parameter, in order: `name = default` or `name: type` |
| TypeScript.TypedEntries | src/printer/typescript.ts:111-125 | in the multi-line form, each typed member in order, ending in `;`, preceded by its indented doc comment |
| TypeScript.PositionalEntries | src/printer/typescript.ts:148-161 | in the multi-line form, each positional entry in order, ending in `,`, preceded by its indented doc comment |
| TypeScript.DestructuredLines | src/printer/typescript.ts:102-109 | in the multi-line form, each destructured entry in order, ending in `,` and indented by two |
| TypeScript.InlineHeaderFits | src/printer/typescript.ts:95-97 | a header kept on one line is the previewed header, so it fits in 80 columns, unless the parameters are bound to a name |
| TypeScript.MultiLineHeader | src/printer/typescript.ts:174 | a multi-line header is the opening up to `(`, each line of the parameter block indented by two, then the closing, each on its own line |
| TypeScript.PositionalBlockLines | src/printer/typescript.ts:148-161 | positional parameters without comments print one `  entry,` line each, in order |
| TypeScript.FunctionDeclaration | src/printer/typescript.ts:59-185 | the function template; InlineHeaderFits, MultiLineHeader, FunctionDocumented and FunctionBodyLines state its form |
| TypeScript.FunctionDocumented | src/printer/typescript.ts:176-184 | a function with a truthy comment is its doc comment, a newline, and the same function without the comment |
| TypeScript.FunctionBodyLines | src/printer/typescript.ts:176-184 | a function ends with the body's lines, each indented by two, and a line `}` |
| TypeScript.DefinitionLines | src/printer/typescript.ts:174-182 | the definition's lines are the header's, each body line indented by two, and `}` |
| TypeScript.DeclarationForm | src/printer/typescript.ts:187-194 | `Declaration` prints a function (ending in `}`) exactly when the props have parameters, and a variable (ending in `;`) otherwise |
| TypeScript.Values | src/printer/typescript.ts:228 | each entry's text in order: the string itself or the object's value |
| TypeScript.ArrayLiteral | src/printer/typescript.ts:196-231 | `Literal.Array`; ArrayInlineLength and ArrayMultiLineLines state its two forms |
| TypeScript.ArrayLines | src/printer/typescript.ts:210-222 | in the multi-line form, one block per entry, in order: its indented doc comment if any, then the value and a comma |
| TypeScript.ArrayEntriesLengthSum | src/printer/typescript.ts:199-203 | the measured length is the number of entries plus the total length of their values |
| TypeScript.ArrayInlineLength | src/printer/typescript.ts:205-230 | an inline array literal is as long as the measure plus one per entry, so at most 80 plus the number of entries |
| TypeScript.ArrayMultiLineLines | src/printer/typescript.ts:209-224 | a multi-line array literal without comments is `[`, one `  value,` line per entry, and `]` |
| TypeScript.CommaLines | src/printer/typescript.ts:213 | each value indented by two and followed by a comma, in order |
| TypeScript.ObjectLiteral | src/printer/typescript.ts:233-274 | `Literal.Object`; ObjectInlineLength and ObjectMultiLineLines state its two forms |
| TypeScript.KeyValues | src/printer/typescript.ts:267-272 | one `key: value` per entry, in order |
| TypeScript.ObjectLines | src/printer/typescript.ts:250-262 | in the multi-line form, one block per entry, in order: its indented doc comment if any, then `key: value,` |
| TypeScript.ObjectEntriesLengthSum | src/printer/typescript.ts:236-243 | the measure plus two per entry is the total length of the `key: value` texts plus one per entry |
| TypeScript.ObjectInlineLength | src/printer/typescript.ts:245-273 | an inline object literal is as long as the measure plus three per entry plus two |
| TypeScript.ObjectMultiLineLines | src/printer/typescript.ts:249-264 | a multi-line object literal without comments is `{`, one `  key: value,` line per entry, and `}` |
| TypeScript.PlainAll | src/printer/typescript.ts:283 | the printed items become plain entries, one each, in order |
| TypeScript.Literal | src/printer/typescript.ts:276-304 | `Literal`; LiteralTotalOnSupported, LiteralAllOk and LiteralPropsOk state when it throws and what it prints |
| TypeScript.LiteralTotalOnSupported | src/printer/typescript.ts:276-304 | `Literal` throws exactly when a value of an unsupported type occurs somewhere inside the value |
| TypeScript.LiteralAllOk | src/printer/typescript.ts:283 | the items of an array print exactly when each is supported, one literal per item |
| TypeScript.LiteralPropsOk | src/printer/typescript.ts:285-287 | the fields of an object print exactly when each value is supported |
| TypeScript.LiteralDoesNotEscape | src/printer/typescript.ts:289-291 | strings are not escaped: the string `a", "b` prints as the two literals `"a"` and `"b"` separated by a comma |
| TypeScript.Union | src/printer/typescript.ts:321-323 | `Type.Union`: the types joined by ` \| `; UnionAppend states that it is associative over concatenation |
| TypeScript.UnionAppend | src/printer/typescript.ts:321-323 | the union of two non-empty lists is the union of their two unions: union is associative over concatenation |
| TypeScript.IndentedCommaLines | src/printer/typescript.ts:347-349 | each parameter followed by a comma and indented by two, in order |
| TypeScript.CallGeneric | src/printer/typescript.ts:338-340 | a generic call's callee is printed as the generic type `name<…>` |
| TypeScript.CallLayout | src/printer/typescript.ts:329-351 | with newline-free parts, a call is on one line exactly when its inline form fits in 80 columns; otherwise its lines are the callee and `(`, one `  param,` per parameter, and `)` |
| TypeScript.Call | src/printer/typescript.ts:329-351 | the call template; CallLayout and CallGeneric state its two forms |
| BuiltinNames.StripSpaces | src/parser/index.ts:140 | the result has no white space and is no longer than the input |
| BuiltinNames.StripSpacesAppend | src/parser/index.ts:140 | dropping white space distributes over concatenation |
| BuiltinNames.StripSpacesPlain | src/parser/index.ts:140 | a string without white space is left as it is |
| BuiltinNames.Trims | src/parser/index.ts:193 | each bar-separated part trimmed, in order |
| BuiltinNames.TrimLeadingSpace | src/parser/index.ts:193 | a leading space does not change a trimmed part |
| BuiltinNames.TrimTrailingSpace | src/parser/index.ts:193 | a part without white space followed by a space trims back to the part |
| BuiltinNames.PythonTsTypesAreTableValues | src/parser/index.ts:129-137 | the set of TypeScript builtin names is exactly the set of values of the Python type table |
| BuiltinNames.MapName | src/parser/index.ts:148-156 | a part maps to a TypeScript builtin name or stays as it is only when it is a known type not in the table; an unknown part not in the table maps to `Any` |
| BuiltinNames.MapParts | src/parser/index.ts:142-145 | one mapped part per bar-separated part, in order |
| BuiltinNames.MapNames | src/parser/index.ts:148-156 | each part mapped on its own, in order |
| BuiltinNames.MapPartsPlain | src/parser/index.ts:139-157 | a part without a bar or white space maps without recursing further |
| BuiltinNames.MapPythonType | src/parser/index.ts:139-157 | `mapPythonType`; MapPythonTypeIsPieces, PiecesInRange and MapPythonTypeUnion state what it gives |
| BuiltinNames.MapPythonTypeIsPieces | src/parser/index.ts:139-157 | `mapPythonType` is the mapped names of the cleaned bar-separated parts joined with a space, a bar and a space; the recursion ends after one level |
| BuiltinNames.MapPythonTypeIgnoresSpace | src/parser/index.ts:140 | white space anywhere in the type does not change its mapping |
| BuiltinNames.MapPythonTypeUnion | src/parser/index.ts:141-145 | a union maps each side on its own and joins the two results with a bar |
| BuiltinNames.PiecesInRange | src/parser/index.ts:139-157 | every mapped name is a TypeScript builtin name or a known type, without bars or white space, and there is at least one |
| BuiltinNames.RegisterSeesPieces | src/parser/index.ts:193 | splitting a mapped type at bars and trimming, as `registerImports` does, gives back exactly the mapped names |
| BuiltinNames.SplitUnion | src/parser/index.ts:193 | splitting names joined by a bar between spaces, and trimming gives the names back |
| BuiltinNames.Capitalize | src/parser/index.ts:163 | the first character is upper-cased and the rest kept |
| BuiltinNames.CapitalizeAll | src/parser/index.ts:163 | each part capitalised, in order |
| BuiltinNames.NormalizeEnumKey | src/parser/index.ts:159-165 | `normalizeEnumKey`; NormalizeEnumKeyIsScan, NormalizeEnumKeyNoUnderscore and NormalizeEnumKeyIdempotent state what it gives |
| BuiltinNames.NormalizeEnumKeyIsScan | src/parser/index.ts:159-165 | the split-filter-map-join of `normalizeEnumKey` is the one-pass scan that drops `_` and upper-cases the first character after each run of underscores |
| BuiltinNames.KeyScanPieces | src/parser/index.ts:159-165 | the one-pass scan agrees with running the capitalised non-empty `_`-parts together |
| BuiltinNames.NormalizeEnumKeyNoUnderscore | src/parser/index.ts:159-165 | a normalised key never contains `_` |
| BuiltinNames.KeyScanFirstUpper | src/parser/index.ts:163 | a normalised key starts with an upper-case character |
| BuiltinNames.NormalizeEnumKeyIdempotent | src/parser/index.ts:159-165 | normalising a key twice is normalising it once |
| BuiltinNames.ToCamel | src/parser/index.ts:167-169 | `toCamel`; ToCamelPlain, ToCamelLetter and ToCamelOfSnake state what it gives |
| BuiltinNames.ToCamelPlain | src/parser/index.ts:167-169 | a name without `_` is left as it is |
| BuiltinNames.ToCamelAppend | src/parser/index.ts:167-169 | after a character other than `_`, converting the two halves separately is converting the whole |
| BuiltinNames.ToCamelLetter | src/parser/index.ts:168 | `_` followed by a letter becomes that letter upper-cased, and the scan goes on after it |
| BuiltinNames.ToCamelOfSnake | src/parser/index.ts:167-169 | a snake_case name becomes its first word followed by the other words capitalised |
| BuiltinNames.NormalizeEnumKeyOfSnake | src/parser/index.ts:159-165 | on a snake_case name the enum key is the camelCase name with its first letter upper-cased |
| BuiltinNames.Interpolated | src/printer/typescript.ts:75 | a truthy default interpolates to a non-empty text |
| BuiltinNames.MapDefault | src/parser/index.ts:171-185 | a default is present exactly when one was given; only a string `None`, `True` or `False` is rewritten, and no string with that text survives; `null`, booleans and numbers pass through; truthiness never changes |
| BuiltinNames.NormalizeBarBaz | src/parser/index.ts:159-165 | `Bar_Baz` becomes the key `BarBaz` |
| BuiltinNames.CamelDoThing | src/parser/index.ts:167-169 | `do_thing` becomes `doThing` |
| Builtins.FileAllContents | src/parser/index.ts:187-206 | whatever the order of the parts, filing adds exactly the modules of the filed parts, and each module gains exactly the parts whose module it is |
| Builtins.FileAllOrderFree | src/parser/index.ts:194-205 | the import table does not depend on the order or the repetition of the registered parts |
| Builtins.FileAllAppend | src/parser/index.ts:194-205 | filing two lists of parts is filing the first and then the second |
| Builtins.FileAllConsistent | src/parser/index.ts:194-205 | filing keeps every filed name a type that maps to its module and is not a Python type name |
| Builtins.FileOneConsistent | src/parser/index.ts:199-204 | filing one part keeps the table consistent |
| Builtins.ImportTable.constructor | src/parser/index.ts:64-65 | the Python type names and the other imports start empty |
| Builtins.ImportTable.Register | src/parser/index.ts:187-206 | `registerImports` adds the Python type names among the trimmed bar-separated parts of the type, and files the other parts under their module |
| Builtins.ImportTable.RegisterParts | src/parser/index.ts:194-205 | the loop of `registerImports`: Python type names go to their set, parts with a non-empty module are added under it, the rest is skipped |
| Builtins.TypeToModuleKeys | src/parser/index.ts:11-17 | exactly the truthy base types of the enums map to a module |
| Builtins.TypeToModuleLastWins | src/parser/index.ts:11-17 | a base type maps to the module of the last enum that has it |
| Builtins.EnumEntries | src/parser/index.ts:25-28 | one object entry per item, in order: the normalised key, the quoted name and the docstring |
| Builtins.EnumFilesExactly | src/parser/index.ts:19-61 | there is a file for each enum with items and none for an enum without |
| Builtins.DefaultText | src/printer/typescript.ts:73-92 | what the printer makes of a default: it is printed exactly when it is truthy, as its interpolation |
| Builtins.MethodParams | src/parser/index.ts:69-77 | each parameter keeps its name, gets its Python type mapped and its default mapped, in order, the default as the printer sees it |
| Builtins.FalsyDefaultIsDropped | src/printer/typescript.ts:73-92 | a parameter with a falsy default (`null`, `false`, `0`, `""`) prints as one without a default, required in the parameter type |
| Builtins.TruthyDefaultIsPrinted | src/printer/typescript.ts:73-82 | a parameter with a truthy default prints `name = default` and is optional in the parameter type |
| Builtins.ParamNames | src/parser/index.ts:87 | the parameter names in order |
| Builtins.MethodTypes | src/parser/index.ts:68-80 | the mapped types registered for a method: one per parameter, then the return type |
| Builtins.ParamTypes | src/parser/index.ts:70 | one mapped type per parameter |
| Builtins.TypeImports | src/parser/index.ts:109-115 | one type import per module, in the given order of modules |
| Builtins.ImportLines | src/parser/index.ts:107-116 | one import line per module of the table, then the import of `call` last |
| Builtins.ImportLine | src/parser/index.ts:107-116 | line `i` imports, as types, the names of the `i`-th module in increasing order of module, the names in increasing order, and every module has one line |
| Builtins.MethodDeclarations | src/parser/index.ts:68-101 | one declaration per method, in order |
| Builtins.BuiltinFilesShape | src/parser/index.ts:4-127 | the files are those of the enums with items, then `methods.ts` exactly when there are methods |
| Builtins.FinalImportsConsistent | src/parser/index.ts:103-105 | in the import table of `methods.ts`, `./python.js` holds only Python type names and any other module only the types whose enum lives there |
| Builtins.WithPythonConsistent | src/parser/index.ts:103-105 | putting the Python type names under `./python.js` keeps the table consistent |
| Builtins.ParseBuiltins | src/parser/index.ts:4-127 | the loops of `parseBuiltins` return exactly the files of the reference definition |
| Builtins.CollectTypeToModule | src/parser/index.ts:11-17 | the first loop builds the map from each truthy base type to the module of the last enum with it |
| Builtins.CollectEnumFiles | src/parser/index.ts:19-61 | the second loop emits the enum files in order, skipping the enums with no items |
| Builtins.CollectMethodsFile | src/parser/index.ts:63-124 | `methods.ts` is the sorted import block, a blank line and the declarations separated by blank lines |
| Builtins.RegisterMethods | src/parser/index.ts:68-101 | the method loop registers the parts of every mapped type, parameters before the return type, and returns one declaration per method |
| Builtins.RegisterMethod | src/parser/index.ts:69-80 | one method registers each parameter's type, then the return type |
| Builtins.RegisterParams | src/parser/index.ts:69-77 | the parameters' types are registered in order |
| Defaults.ConstantOfValue | src/parser/parser.ts:56-63 | the values `constant` gives (`null`, a boolean, a non-negative number, a string) are exactly those with a constant |
| Defaults.ConstantsAreConstants | src/parser/parser.ts:56-63 | every token `constant` accepts gives a default; a name gives `null` or a boolean, never a string, and a string token its text |
| Defaults.NameDefaultsPassThrough | src/parser/index.ts:171-185 | `mapDefault` leaves every default written as a name unchanged |
| Defaults.FalsyNamesDropped | src/parser/ast.ts:79 | `x = None` and `x = False` reach the printer as no default: `x` and `x: type` |
| Defaults.TrueNamePrinted | src/parser/ast.ts:79 | `x = True` prints as `x = true` |
| Defaults.NoneStringPrinted | src/parser/index.ts:175-177 | the string literal `"None"` as a default prints as `x = null` |
| PythonPrint.Call | src/print.ts:14-23 | the call object `{ method, params, returns }` the wrappers build; CallPrinted states how it prints |
| PythonPrint.Find | src/print.ts:17 | the index of the first entry with the key, or none exactly when no entry has it |
| PythonPrint.CallIndices | src/print.ts:14-23 | an object is printed as a call exactly when it has a string `method`, an array `params` and a string `returns`, and the indices say where they are |
| PythonPrint.PrintString | src/print.ts:41-47 | a string prints as it is exactly when it is a direction or a dotted name whose first character does not change when upper-cased; otherwise it prints between double quotes, unescaped |
| PythonPrint.PrintAll | src/print.ts:24-28 | one printed value per item, in order |
| PythonPrint.PrintEntries | src/print.ts:36-38 | one `key: value` per entry, in order, the key printed as a string |
| PythonPrint.PrintValue | src/print.ts:3-55 | `printValue`; CallPrinted, DictPrinted, IntPrinted, PrintString and PrintValueOneLine state what it prints |
| PythonPrint.CallPrinted | src/print.ts:14-26 | a call object prints as its method name and its printed parameters, comma-separated, in parentheses |
| PythonPrint.DictPrinted | src/print.ts:36-39 | an object without a `method` key prints in braces as its entries `key: value`, in entry order |
| PythonPrint.IntPrinted | src/print.ts:48-50 | an integer prints as decimal digits that read back as its value, with a minus sign in front when negative |
| PythonPrint.PrintValueOneLine | src/print.ts:3-55 | a value with no newline in any string inside prints on one line |
| PythonPrint.PrintProgram | src/print.ts:57-59 | `printProgram`; ProgramLines and EmptyProgram state what it prints |
| PythonPrint.ProgramLines | src/print.ts:57-59 | the lines of a printed program are the printed values, one per line, when no string inside holds a newline |
| PythonPrint.EmptyProgram | src/print.ts:57-59 | an empty program prints as the empty string |
| PythonPrint.MovePrinted | src/print.ts:41-47 | `move(North)` keeps the direction bare |
| PythonPrint.PrintPrinted | src/print.ts:48-50 | `print(0, 0)` prints its numbers |
| PythonPrint.DottedNameBare | src/print.ts:43-46 | `Entities.Bush` stays bare |
| PythonPrint.LowerDottedQuoted | src/print.ts:43-46 | `hello.world` is quoted |
| PythonPrint.WordQuoted | src/print.ts:43-46 | a plain word that is not a direction, `Bush`, is quoted |
| Grid.JsRem | src/index.ts:29-30 | JavaScript's `%`: the usual remainder for a non-negative dividend, and a remainder in `(-b, 0]` for a negative one |
| Grid.StepAlong | src/index.ts:39-42 | along a pass, the move the source makes from visit `j` lands on visit `j + 1` of the closed form |
| Grid.StepAcross | src/index.ts:43-44 | after the last visit of a pass the move is East, and it lands on the first visit of the next pass |
| Grid.NextColumn | src/index.ts:19-29 | moving East from the column of pass `i` reaches the column of pass `i + 1`, wrapping around |
| Grid.InRange | src/index.ts:40 | the callback only ever sees squares of the grid |
| Grid.EastsClosesWalk | src/index.ts:33-36 | the number of passes is the least positive even multiple of `size`, so the walk comes back to `(0, 0)` |
| Grid.ColumnLength | src/index.ts:39-44 | with a callback that emits `c` values per square, a pass emits `size * (c + 1)` values |
| Grid.ColumnsLength | src/index.ts:38-45 | `m` passes emit `m * size * (c + 1)` values |
| Grid.Walk | src/index.ts:4-48 | the closed form of the walk that TraverseGrid is proved to emit; WalkLength, EastsClosesWalk and InRange state its properties |
| Grid.WalkLength | src/index.ts:4-48 | the walk makes `easts * size` moves, so it emits `easts * size * (c + 1)` values, and nothing when `size <= 0` |
| Grid.WalkOfOne | src/index.ts:4-48 | on a 1 by 1 grid the callback runs twice at `(0, 0)`, each time followed by a move East |
| Grid.Move | src/index.ts:13-31 | `move` pushes the move call, then steps in the direction and reduces both coordinates modulo `size` |
| Grid.TraverseGrid | src/index.ts:4-48 | the nested loops emit exactly the closed-form walk: for every pass and visit, the callback's values at `(X, Y)` then the move in direction `Dir` |
| Grid.WalkPass | src/index.ts:39-44 | one pass of the outer loop appends that pass's visits and ends on the first square of the next pass |
| Elm.BagToList | src/parser/elm.ts:121-133 | `bagToList`; BagToListIsFlatten states what it gives |
| Elm.BagToListIsFlatten | src/parser/elm.ts:121-133 | `bagToList(bag, list)` puts the bag's dead ends, left to right, in front of `list` |
| Elm.FromState | src/parser/elm.ts:74-80 | the bag holds exactly one dead end, at the state's row and column, with the problem and the state's context |
| Elm.FromInfo | src/parser/elm.ts:82-93 | the bag holds exactly one dead end with the given row, column, problem and context |
| Elm.Succeed | src/parser/elm.ts:135-144 | `succeed`; SucceedLeavesState states what it does |
| Elm.Problem | src/parser/elm.ts:146-154 | `problem`; ProblemAtState states what it does |
| Elm.Map | src/parser/elm.ts:156-171 | `map`; MapStep, MapIdentity and MapCompose state what it does |
| Elm.Map2 | src/parser/elm.ts:173-203 | `map2`; Map2Step and Map2SucceedLeft state what it does |
| Elm.Keeper | src/parser/elm.ts:205-210 | `keeper`; KeeperApplies states what it does |
| Elm.Ignorer | src/parser/elm.ts:212-217 | `ignorer`; IgnorerKeepsFirst states what it does |
| Elm.Run | src/parser/elm.ts:37-56 | `run`; RunBasics states what it does |
| Elm.SucceedLeavesState | src/parser/elm.ts:135-144 | `succeed(a)` is a good, uncommitted step with value `a` that leaves the state as it is |
| Elm.ProblemAtState | src/parser/elm.ts:146-154 | `problem(x)` is a bad, uncommitted step whose only dead end is `x` at the state's position and context |
| Elm.RunBasics | src/parser/elm.ts:37-56 | `run` starts at row 1, column 1 with no context: `succeed(a)` gives `Ok(a)` and `problem(x)` gives the one dead end `x` at row 1, column 1 |
| Elm.MapStep | src/parser/elm.ts:156-171 | `map` keeps a bad step as it is, and keeps a good step's commitment and state while applying the function to its value |
| Elm.MapIdentity | src/parser/elm.ts:156-171 | mapping the identity changes nothing |
| Elm.MapCompose | src/parser/elm.ts:156-171 | mapping `f` and then `g` is mapping their composition |
| Elm.Map2Step | src/parser/elm.ts:173-203 | `map2` returns a bad first step as it is; otherwise the second parser runs from the first one's state, the result is committed iff either step was, and a good result combines both values |
| Elm.Map2SucceedLeft | src/parser/elm.ts:173-203 | `map2` with `succeed(a)` first is a `map` of the second parser |
| Elm.IgnorerKeepsFirst | src/parser/elm.ts:212-217 | a good `ignorer` step has the first parser's value and the second parser's state |
| Elm.KeeperApplies | src/parser/elm.ts:205-210 | a good `keeper` step applies the parsed function to the parsed argument |
| Elm.BagExample | src/parser/elm.ts:95-120 | the bag of the doc comment on `bagToList` lists its dead ends `a` then `b` |
| Elm.At11 | src/parser/elm.test.ts:15-20 | a dead end of the test: row 1, column 1, the given problem and no context |
| Elm.FlattenPair | src/parser/elm.test.ts:9-28 | two dead ends added to the empty bag flatten to those two, in order |
| Elm.BagTestListsAll | src/parser/elm.ts:121-133 | on the bag of the `bagToList` test, `bagToList(bag, [])` gives all six dead ends, `a` to `f`, in order |
| ElmImpl.SurrogateRange | src/parser/elm-impl.ts:48 | the test `(code & 0xf800) === 0xd800` picks out exactly the code units 0xD800 to 0xDFFF |
| ElmImpl.At | src/parser/elm-impl.ts:77 | indexing the text gives a code unit exactly inside it, and that unit |
| ElmImpl.Piece | src/parser/elm-impl.ts:48-57 | the character handed to the predicate starts with the unit at the offset and is two units long exactly when that unit is a surrogate with a unit after it |
| ElmImpl.FirstMismatch | src/parser/elm-impl.ts:75-91 | the substring agrees with the text before the returned index, and differs from it at that index unless it is the substring's length |
| ElmImpl.Walk | src/parser/elm-impl.ts:75-91 | the character-by-character walk of the compare loop; WalkReaches and WalkPlain state where it lands |
| ElmImpl.Take | src/parser/elm-impl.ts:72-92 | the first-mismatch definition of `take(substring)` that TakeString is proved to compute; TakeSound and TakePlain state its properties |
| ElmImpl.Stream.constructor | src/parser/elm-impl.ts:15-22 | a new stream is at offset 0, row 1, column 1, indent 1, with no context |
| ElmImpl.Stream.ProblemHere | src/parser/elm-impl.ts:24-31 | the problem record has the stream's row, column and context: the dead end the functional layer records at that state |
| ElmImpl.Stream.Seek | src/parser/elm-impl.ts:33-37 | `seek` sets the offset and moves the column by the distance the offset moved, and changes nothing else |
| ElmImpl.Stream.TakeIf | src/parser/elm-impl.ts:44-70 | `take(pred)` succeeds exactly when there is a character left and the predicate accepts it; then it steps over it (a surrogate pair is two units and one column, a newline starts the next row at column 1), otherwise nothing moves |
| ElmImpl.Stream.TakeString | src/parser/elm-impl.ts:72-92 | the `while` loop of `take(substring)` ends in exactly the success, offset, row and column of its first-mismatch definition |
| ElmImpl.CompareStep | src/parser/elm-impl.ts:76-90 | one round of the loop steps over one character exactly as the walk of the first-mismatch definition does (a newline starts the next row at column 1, a surrogate takes two units and one column), and the flag stays "no mismatch among the units compared so far" |
| ElmImpl.TakeAfterLoop | src/parser/elm-impl.ts:75-92 | when the loop exits, its flag, offset, row and column are those of the first-mismatch definition |
| ElmImpl.WalkReaches | src/parser/elm-impl.ts:75-91 | stepping character by character never stops short of its end and overshoots it by at most one unit |
| ElmImpl.WalkPlain | src/parser/elm-impl.ts:75-91 | over text without surrogates, stepping lands exactly on its end, counts one row per newline, and without newlines moves the column by the number of units |
| ElmImpl.TakeSound | src/parser/elm-impl.ts:72-92 | a successful `take(substring)` matched the whole substring, and it lies inside the text |
| ElmImpl.TakePlain | src/parser/elm-impl.ts:72-92 | over text without surrogates, taking a substring that is there succeeds and ends right after it, one row further per newline in it |
| ElmImpl.TakeFailureMoves | src/parser/elm-impl.ts:75-91 | a failed take with room for the substring has still moved past the first mismatch: the stream is not rewound |
| ElmImpl.TakeOneUnit | src/parser/elm-impl.ts:44-92 | taking a one-unit substring that is not a surrogate succeeds exactly when `take` with the predicate "is that unit" would, and steps the same way |
| ElmImpl.LoneSurrogateAtEnd | src/parser/elm-impl.ts:85-89 | a lone surrogate that ends both the substring and the text matches, and leaves the offset one past the end of the text |
| ElmImpl.SeekBack | src/parser/elm-impl.ts:33-37 | seeking back to where the stream was restores its column |
| ElmImpl.SeekTwice | src/parser/elm-impl.ts:33-37 | two seeks in a row are one seek to the second target |

## Left out

- File and OS work (scripts/ and src/paths.ts), the module-level program printed with `console.log` in src/index.ts, and `dedent`, a wrapper over the `ts-dedent` library: I/O or foreign code.
- The enum tables and `call` wrappers of src/types/ and the implementation of `call`: constant data and code that is not part of this model. `print.dfy` uses the four `Directions` values and `grid.dfy` builds `move(direction)` calls as the wrappers do.
- src/parser/python.ts: an unimplemented stub that only throws.
- The unfinished `Parser`/`Tupler` classes of src/parser/elm-impl.ts and the commented-out design sketch in src/parser/elm.ts: not running code.
- Floating-point numbers: JavaScript numbers are modelled as integers, so `toString` of a fraction in `printValue` and `Literal`, and `parseInt` of anything but a digit run, are not modelled.
- Text is `seq<char>` (Unicode scalar values) everywhere except the Elm-style stream, which works on UTF-16 code units as the source does; a lone surrogate in the other stages' input cannot be represented.
- PrintUtil.WrapLines: follows src/printer/util.ts; src/printer/util.test.ts imports `Indent` and `Wrap`, which util.ts does not export (it exports `indent` and `wrap`), and its snapshots at util.test.ts:13-20 expect a leading space that util.ts:33-56 never produces, so the model agrees with the code and not with those tests.
- Elm.BagToList: follows src/parser/elm.ts:121-133; the inline snapshot in src/parser/elm.test.ts:5-91 lists only the dead ends `a` and `b` of a bag that holds six, while the code lists all six (`a` to `f`, Elm.BagTestListsAll), so the model agrees with the code and not with that snapshot.
- Upper-casing (`toUpperCase`) is modelled for ASCII letters only; other characters are left unchanged.
- BuiltinNames.IsSpace: `trim` and `\s` are modelled for ASCII white space only (space, tab, line feed, vertical tab, form feed, carriage return); JavaScript also trims U+00A0, U+FEFF, U+2028, U+2029 and the other Unicode spaces, which the model keeps.
- TypeScript.Literal: widths for the 80-column rule (`Literal`, `CallLayout`, `InlineHeaderFits`, the array and object layouts) are counted in characters, where JavaScript's `length` counts UTF-16 code units; the two differ only outside the Basic Multilingual Plane.
- TypeScript.Literal: an object literal's entries are printed in the order the model holds them; `Object.entries` lists integer-like keys first, which the model does not reorder.
- `localeCompare` and the default `sort` in `parseBuiltins` are modelled as code-unit order, which agrees with them on ASCII module paths and type names.
- `cleaned in PYTHON_TYPE_MAP` also holds for names inherited from `Object.prototype` (such as `toString`); `BuiltinNames.MapName` reads only the table's own six keys.
- `printValue` prints an object's entries in the order the model holds them; JavaScript lists integer-like keys first, which the model does not reorder.
- Builtins.ParseBuiltins: takes the enums and methods `parseAST` returns rather than the text, so lexing and parse errors end before it; an enum named `Methods` would also produce a file `methods.ts`, and only position tells the two apart.
- Base.Eval: the generic engine is fixed to token streams; the engine's own tests on streams of characters are modelled with one name token per character.
- Merging.MergeAssociative: holds for the corrected merge only; the merge as written is not associative (Merging.MergeAsWrittenNotAssociative), and Merging.MergeAsWrittenPlainAssociative states associativity for values none of which is a marked object.
- Ast.GuardedEnumItem: the guard stops the items only at a token no item can start with; an assignment right after an enum's items (a name then `=`) is still probed as an item and, on an eager stream, throws.
- Base.Eval: offsets are natural numbers, since `seek` is only ever given an offset saved earlier.
- Base.Eval: `many` takes no snapshot of its own before each round, as in the source; a round that succeeds without changing the state would loop forever, and gives `Diverge` instead.
- Ast.ParseAst: src/parser/ast.ts calls `parseStream`, which only the older engine's parsers have; the model runs the generic engine's `parse` on the shared stream.
- ElmImpl.TakePlain: states only the success direction, over text without surrogates; the general case is stated by `Take` and `ElmImpl.TakeSound`.
- ElmImpl.LoneSurrogateAtEnd: a substring whose last unit is a lone surrogate compares the unit after it on both sides; at the end of both strings these are `undefined` and equal, so the take succeeds with the offset one past the end. The model keeps this behaviour, which matches the Elm parser's `isSubString`.

## Findings

| source | as written | input that shows it | evidently intended | confidence | as-written member | corrected member |
|---|---|---|---|---|---|---|
| src/parser/merge.ts:40-45 | the union of two marked objects is an object spread, which does not copy the non-enumerable `AsObject` marker, so the union is unmarked | three named fields `name`, `params` and `returns` sequenced by `and`: the second merge sees an unmarked left operand and builds a two-element list | the union stays marked, as the `Merge` type says, so a chain of named fields is one object | not executed | Merging.MergeAsWrittenSplitsThreeFields | Merging.MergeAllNamed |
| src/parser/ast.ts:141-156 | the stream's `eager` flag is never cleared, so after the first enum's `class` commit every later probe runs eager; probing `def f` as an assignment (a name, then no `=`) throws | the tokens of `class A:`, a comment line, and `def f(x): "d" ...` | each top-level parse starts non-eager, so the assignment loop ends at `def` and the methods are read | not executed | AstLaws.AsWrittenNeverParsesMethods | AstScenarios.DriverReadsSample |
| src/parser/ast.ts:53-61 | the enum items are a `many` of bare items; on the stream left eager by the enum's commit, the next `class` is probed as an item, and the missing `:` after its name is a syntax error | `class A: "doc"` followed by `class B:` | the items stop at a token that cannot start an item, so two enums may follow each other | not executed | AstScenarios.PairUnguardedThrows | AstScenarios.DriverReadsPair |
| src/parser/ast.ts:72-87 | a parameter opens with an optional `*` or `**` that succeeds without taking a token, so at the `)` of an empty list the parameter has matched, and the missing name is a syntax error inside the method's commit | `def g(): "d" ...` | an empty parameter list gives `params: []` | not executed | AstScenarios.EmptyParamsThrow | AstScenarios.BareMethodReads |
