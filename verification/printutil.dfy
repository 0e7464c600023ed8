/**
 * The two layout helpers of the printers: `indent`, which prefixes every line with
 * spaces, and `wrap`, which refills words greedily into lines of a given width.
 */
module PrintUtil {
  import opened Strings

  /** Each line with `prefix` in front. */
  function Prefixed(lines: seq<string>, prefix: string): (r: seq<string>)
    ensures |r| == |lines|
    ensures forall i :: 0 <= i < |lines| ==> r[i] == prefix + lines[i]
  {
    if |lines| == 0 then [] else [prefix + lines[0]] + Prefixed(lines[1..], prefix)
  }

  /** `indent(value, amount)`: split at newlines, put `amount` spaces in front of each line, join again. */
  function Indent(value: string, amount: nat): string
  {
    Join(Prefixed(Split(value, '\n'), Spaces(amount)), "\n")
  }

  /** Indenting keeps the number of lines, and line `i` of the result is the spaces followed by line `i`. */
  lemma IndentLines(value: string, amount: nat)
    ensures Split(Indent(value, amount), '\n') == Prefixed(Split(value, '\n'), Spaces(amount))
  {
    var lines := Prefixed(Split(value, '\n'), Spaces(amount));
    forall i | 0 <= i < |lines|
      ensures '\n' !in lines[i]
    {
      assert lines[i] == Spaces(amount) + Split(value, '\n')[i];
    }
    SplitJoin(lines, '\n');
  }

  /** Indenting by nothing changes nothing. */
  lemma IndentZero(value: string)
    ensures Indent(value, 0) == value
  {
    var lines := Split(value, '\n');
    assert Spaces(0) == "";
    assert forall i :: 0 <= i < |lines| ==> Spaces(0) + lines[i] == lines[i];
    assert Prefixed(lines, Spaces(0)) == lines;
    JoinSplit(value, '\n');
  }

  /** Indenting twice is indenting once by the sum. */
  lemma IndentTwice(value: string, a: nat, b: nat)
    ensures Indent(Indent(value, a), b) == Indent(value, a + b)
  {
    IndentLines(value, a);
    var lines := Split(value, '\n');
    var once := Prefixed(lines, Spaces(a));
    assert Prefixed(once, Spaces(b)) == Prefixed(lines, Spaces(a + b)) by {
      forall i | 0 <= i < |lines|
        ensures Spaces(b) + (Spaces(a) + lines[i]) == Spaces(a + b) + lines[i]
      {
        SpacesAdd(b, a);
      }
    }
  }

  lemma SpacesAdd(a: nat, b: nat)
    ensures Spaces(a) + Spaces(b) == Spaces(a + b)
  {
  }

  // ---- wrap ----

  /** `value.split("\n").join(" ").split(" ")`: the words, newlines counting as spaces. */
  function Words(value: string): seq<string>
  {
    Split(Join(Split(value, '\n'), " "), ' ')
  }

  function NewlinesToSpaces(s: string): (r: string)
    ensures |r| == |s|
    ensures forall i :: 0 <= i < |s| ==> r[i] == if s[i] == '\n' then ' ' else s[i]
  {
    if |s| == 0 then "" else [if s[0] == '\n' then ' ' else s[0]] + NewlinesToSpaces(s[1..])
  }

  /** Joining the lines with spaces is replacing every newline by a space. */
  lemma {:induction false} JoinLinesWithSpaces(s: string)
    ensures Join(Split(s, '\n'), " ") == NewlinesToSpaces(s)
  {
    if |s| > 0 {
      JoinLinesWithSpaces(s[1..]);
      var rest := Split(s[1..], '\n');
      if s[0] == '\n' {
        assert Split(s, '\n') == [""] + rest;
        assert Join([""] + rest, " ") == "" + " " + Join(rest, " ");
      } else {
        var r := Split(s, '\n');
        assert r == [[s[0]] + rest[0]] + rest[1..];
        if |rest| == 1 {
          assert r == [[s[0]] + rest[0]];
        } else {
          assert r[1..] == rest[1..];
          assert Join(rest, " ") == rest[0] + " " + Join(rest[1..], " ");
        }
      }
    }
  }

  /** `wrap` treats a newline exactly as a space. */
  lemma WordsIgnoreNewlines(value: string)
    ensures Words(value) == Split(NewlinesToSpaces(value), ' ')
  {
    JoinLinesWithSpaces(value);
  }

  /**
   * One turn of the `for` loop of `wrap`: an empty line takes the word; a word that does
   * not fit pushes the line and starts the next one; otherwise the word is appended
   * after a space. `NextLine` is the new current line, `NextLines` the pushed lines.
   */
  function NextLine(line: string, word: string, width: int): string
  {
    if |line| == 0 then word
    else if |line| + 1 + |word| > width then word
    else line + " " + word
  }

  function NextLines(line: string, lines: seq<string>, word: string, width: int): seq<string>
  {
    if |line| > 0 && |line| + 1 + |word| > width then lines + [line] else lines
  }

  /** The loop of `wrap` from the given current `line` and pushed `lines` on; a non-empty last line is pushed. */
  function Fill(words: seq<string>, width: int, line: string, lines: seq<string>): seq<string>
    decreases |words|
  {
    if |words| == 0 then (if |line| > 0 then lines + [line] else lines)
    else Fill(words[1..], width, NextLine(line, words[0], width), NextLines(line, lines, words[0], width))
  }

  /** The lines `wrap` produces. */
  function WrapLines(value: string, width: int): seq<string>
  {
    Fill(Words(value), width, "", [])
  }

  /** `wrap(value, width)` */
  method Wrap(value: string, width: int) returns (r: string)
    ensures r == Join(WrapLines(value, width), "\n")
  {
    var words := Words(value);
    var lines: seq<string> := [];
    var line := "";
    for i := 0 to |words|
      invariant Fill(words[i..], width, line, lines) == Fill(words, width, "", [])
    {
      var word := words[i];
      assert words[i..][1..] == words[i + 1..];
      if |line| == 0 {
        line := word;
        continue;
      }
      if |line| + 1 + |word| > width {
        lines := lines + [line];
        line := word;
      } else {
        line := line + " " + word;
      }
    }
    if |line| > 0 {
      lines := lines + [line];
    }
    r := Join(lines, "\n");
  }

  // ---- what wrap guarantees ----

  /** The text up to the first space. */
  function FirstWord(s: string): (w: string)
    ensures |w| <= |s| && ' ' !in w
  {
    if |s| == 0 || s[0] == ' ' then "" else [s[0]] + FirstWord(s[1..])
  }

  lemma {:induction false} FirstWordOfSpaceless(s: string)
    requires ' ' !in s
    ensures FirstWord(s) == s
  {
    if |s| > 0 {
      FirstWordOfSpaceless(s[1..]);
    }
  }

  lemma {:induction false} FirstWordExtends(s: string, t: string)
    requires |s| > 0 && s[0] != ' '
    ensures FirstWord(s + " " + t) == FirstWord(s)
  {
    if |s| > 1 && s[1] != ' ' {
      FirstWordExtends(s[1..], t);
      assert (s + " " + t)[1..] == s[1..] + " " + t;
    } else if |s| > 1 {
      assert (s + " " + t)[1] == ' ';
    } else {
      assert (s + " " + t)[1] == ' ';
    }
  }

  /** Each output line is non-empty; one longer than the width is a single word; breaks are greedy. */
  ghost predicate WellWrapped(lines: seq<string>, width: int)
  {
    && (forall i :: 0 <= i < |lines| ==> |lines[i]| > 0 && lines[i][0] != ' ')
    && (forall i :: 0 <= i < |lines| ==> |lines[i]| <= width || ' ' !in lines[i])
    && (forall i :: 0 < i < |lines| ==> |lines[i - 1]| + 1 + |FirstWord(lines[i])| > width)
  }

  /** The state of the loop keeps the lines well wrapped and the current line in shape. */
  ghost predicate FillState(lines: seq<string>, line: string, width: int)
  {
    && WellWrapped(lines, width)
    && (|line| > 0 ==> line[0] != ' ')
    && (|line| <= width || ' ' !in line)
    && (|lines| > 0 ==> |lines[|lines| - 1]| + 1 + |FirstWord(line)| > width || |line| == 0)
    && (|lines| > 0 && |line| == 0 ==> |lines[|lines| - 1]| >= width)
  }

  lemma {:induction false} FillWellWrapped(words: seq<string>, width: int, line: string, lines: seq<string>)
    requires forall i :: 0 <= i < |words| ==> ' ' !in words[i]
    requires FillState(lines, line, width)
    ensures WellWrapped(Fill(words, width, line, lines), width)
    decreases |words|
  {
    if |words| == 0 {
      if |line| > 0 {
        PushKeepsWellWrapped(lines, line, width);
      }
    } else {
      FillStateStep(lines, line, words[0], width);
      FillWellWrapped(words[1..], width, NextLine(line, words[0], width), NextLines(line, lines, words[0], width));
    }
  }

  /** Pushing a line that continues the greedy state keeps the lines well wrapped. */
  lemma PushKeepsWellWrapped(lines: seq<string>, line: string, width: int)
    requires FillState(lines, line, width) && |line| > 0
    ensures WellWrapped(lines + [line], width)
  {
    var r := lines + [line];
    assert r[|r| - 1] == line;
    assert forall i :: 0 <= i < |lines| ==> r[i] == lines[i];
  }

  /** One turn of the loop keeps the greedy state. */
  lemma FillStateStep(lines: seq<string>, line: string, word: string, width: int)
    requires ' ' !in word
    requires FillState(lines, line, width)
    ensures FillState(NextLines(line, lines, word, width), NextLine(line, word, width), width)
  {
    FirstWordOfSpaceless(word);
    if |line| == 0 {
    } else if |line| + 1 + |word| > width {
      PushKeepsWellWrapped(lines, line, width);
      var r := lines + [line];
      assert r[|r| - 1] == line;
    } else {
      FirstWordExtends(line, word);
      assert (line + " " + word)[0] == line[0];
    }
  }

  /** What `wrap` promises about its lines: none empty, overlong only as single words, greedy breaks. */
  lemma WrapIsWellWrapped(value: string, width: int)
    ensures WellWrapped(WrapLines(value, width), width)
  {
    FillWellWrapped(Words(value), width, "", []);
  }

  // ---- words kept in order ----

  /** The non-empty strings of `s`, in order. */
  function NonEmpty(s: seq<string>): (r: seq<string>)
    ensures forall i :: 0 <= i < |r| ==> |r[i]| > 0
  {
    if |s| == 0 then [] else (if |s[0]| > 0 then [s[0]] else []) + NonEmpty(s[1..])
  }

  lemma {:induction false} NonEmptyAppend(a: seq<string>, b: seq<string>)
    ensures NonEmpty(a + b) == NonEmpty(a) + NonEmpty(b)
  {
    if |a| > 0 {
      NonEmptyAppend(a[1..], b);
      assert (a + b)[1..] == a[1..] + b;
    } else {
      assert a + b == b;
    }
  }

  /** The non-empty words of a string. */
  function Tokens(s: string): seq<string>
  {
    NonEmpty(Split(s, ' '))
  }

  lemma TokensAround(a: string, b: string)
    ensures Tokens(a + " " + b) == Tokens(a) + Tokens(b)
  {
    SplitAround(a, b, ' ');
    NonEmptyAppend(Split(a, ' '), Split(b, ' '));
  }

  /** The words of the lines, one more word on the last line. */
  lemma TokensOfLast(lines: seq<string>, line: string, word: string)
    ensures Tokens(Join(lines + [line + " " + word], " ")) == Tokens(Join(lines + [line], " ")) + Tokens(word)
  {
    if |lines| > 0 {
      JoinSnoc(lines, line + " " + word, " ");
      JoinSnoc(lines, line, " ");
      assert Join(lines, " ") + " " + (line + " " + word) == (Join(lines, " ") + " " + line) + " " + word;
      TokensAround(Join(lines, " ") + " " + line, word);
    } else {
      TokensAround(line, word);
    }
  }

  /** The words of the lines, one more line holding a word. */
  lemma TokensOfPush(lines: seq<string>, word: string)
    requires |lines| > 0
    ensures Tokens(Join(lines + [word], " ")) == Tokens(Join(lines, " ")) + Tokens(word)
  {
    JoinSnoc(lines, word, " ");
    TokensAround(Join(lines, " "), word);
  }

  /** An empty last line adds no word. */
  lemma TokensOfEmptyLast(lines: seq<string>)
    ensures Tokens(Join(lines + [""], " ")) == Tokens(Join(lines, " "))
  {
    if |lines| > 0 {
      TokensOfPush(lines, "");
    }
    assert Tokens("") == [];
  }

  lemma WordTokens(word: string)
    requires ' ' !in word
    ensures Tokens(word) == NonEmpty([word])
  {
    SplitNoSeparator(word, ' ');
  }

  /** The words of the pushed lines and the current line, with the words still to come. */
  lemma {:induction false} FillKeepsTokens(words: seq<string>, width: int, line: string, lines: seq<string>)
    requires forall i :: 0 <= i < |words| ==> ' ' !in words[i]
    ensures Tokens(Join(Fill(words, width, line, lines), " ")) == Tokens(Join(lines + [line], " ")) + NonEmpty(words)
    decreases |words|, 1
  {
    if |words| == 0 {
      if |line| == 0 {
        TokensOfEmptyLast(lines);
      }
    } else {
      FillKeepsTokensStep(words, width, line, lines);
    }
  }

  lemma {:induction false} FillKeepsTokensStep(words: seq<string>, width: int, line: string, lines: seq<string>)
    requires |words| > 0
    requires forall i :: 0 <= i < |words| ==> ' ' !in words[i]
    ensures Tokens(Join(Fill(words, width, line, lines), " ")) == Tokens(Join(lines + [line], " ")) + NonEmpty(words)
    decreases |words|, 0
  {
    var word, rest := words[0], words[1..];
    WordTokens(word);
    assert words == [word] + rest;
    NonEmptyAppend([word], rest);
    var next, pushed := NextLine(line, word, width), NextLines(line, lines, word, width);
    assert Fill(words, width, line, lines) == Fill(rest, width, next, pushed);
    FillKeepsTokens(rest, width, next, pushed);
    TokensOfStep(lines, line, word, width);
    TokensChain(Tokens(Join(Fill(words, width, line, lines), " ")), Tokens(Join(pushed + [next], " ")),
      Tokens(Join(lines + [line], " ")), Tokens(word), NonEmpty(rest), NonEmpty(words));
  }

  /** The bookkeeping of one step: the tokens after it, re-associated. */
  lemma TokensChain(after: seq<string>, mid: seq<string>, before: seq<string>, word: seq<string>,
                    rest: seq<string>, all: seq<string>)
    requires after == mid + rest && mid == before + word && all == word + rest
    ensures after == before + all
  {
  }

  lemma TokensOfStep(lines: seq<string>, line: string, word: string, width: int)
    ensures Tokens(Join(NextLines(line, lines, word, width) + [NextLine(line, word, width)], " "))
         == Tokens(Join(lines + [line], " ")) + Tokens(word)
  {
    if |line| == 0 {
      TokensOfEmptyLast(lines);
      if |lines| > 0 {
        TokensOfPush(lines, word);
      } else {
        assert Join([word], " ") == word;
        assert Join([""], " ") == "";
      }
    } else if |line| + 1 + |word| > width {
      TokensOfPush(lines + [line], word);
    } else {
      TokensOfLast(lines, line, word);
    }
  }

  lemma {:induction false} NoNewlineInFill(words: seq<string>, width: int, line: string, lines: seq<string>)
    requires forall i :: 0 <= i < |words| ==> '\n' !in words[i]
    requires '\n' !in line && forall i :: 0 <= i < |lines| ==> '\n' !in lines[i]
    ensures forall i :: 0 <= i < |Fill(words, width, line, lines)| ==> '\n' !in Fill(words, width, line, lines)[i]
    decreases |words|
  {
    if |words| > 0 {
      var word := words[0];
      if |line| == 0 {
        NoNewlineInFill(words[1..], width, word, lines);
      } else if |line| + 1 + |word| > width {
        NoNewlineInFill(words[1..], width, word, lines + [line]);
      } else {
        NoNewlineInFill(words[1..], width, line + " " + word, lines);
      }
    }
  }

  /** No line of `wrap` holds a newline. */
  lemma WrapLinesNoNewline(value: string, width: int)
    ensures forall i :: 0 <= i < |WrapLines(value, width)| ==> '\n' !in WrapLines(value, width)[i]
  {
    var words := Words(value);
    forall i | 0 <= i < |words| ensures '\n' !in words[i] {
      WordsIgnoreNewlines(value);
      assert forall k :: 0 <= k < |NewlinesToSpaces(value)| ==> NewlinesToSpaces(value)[k] != '\n';
      SplitPieceIn(NewlinesToSpaces(value), ' ', i);
    }
    NoNewlineInFill(words, width, "", []);
  }

  /** Wrapping neither loses, adds nor reorders a word: the output has the input's non-empty words. */
  lemma WrapKeepsWords(value: string, width: int)
    ensures NonEmpty(Words(Join(WrapLines(value, width), "\n"))) == NonEmpty(Words(value))
  {
    var words := Words(value);
    var lines := WrapLines(value, width);
    FillKeepsTokens(words, width, "", []);
    assert Join([""], " ") == "";
    assert Tokens("") == [];
    WrapLinesNoNewline(value, width);
    if |lines| == 0 {
      assert Join(lines, "\n") == "";
      assert Words("") == [""];
    } else {
      SplitJoin(lines, '\n');
    }
  }

  /** Each piece of a split is made of characters of the string. */
  lemma {:induction false} SplitPieceIn(s: string, c: char, i: nat)
    requires i < |Split(s, c)|
    ensures forall x :: x in Split(s, c)[i] ==> x in s
  {
    if |s| > 0 {
      var rest := Split(s[1..], c);
      if s[0] == c {
        if i > 0 {
          SplitPieceIn(s[1..], c, i - 1);
        }
      } else {
        if i == 0 {
          SplitPieceIn(s[1..], c, 0);
        } else {
          SplitPieceIn(s[1..], c, i);
        }
      }
    }
  }
}
