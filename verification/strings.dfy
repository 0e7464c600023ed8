/**
 * Character classes and the JavaScript string operations the repository relies on:
 * `split` on one character, `join`, `" ".repeat(n)`, `toUpperCase` on one character,
 * decimal rendering of integers, `parseInt` on digit runs and the default string
 * order used by `Array.prototype.sort`.
 */
module Strings {

  predicate IsDigit(c: char) { '0' <= c <= '9' }
  predicate IsLower(c: char) { 'a' <= c <= 'z' }
  predicate IsUpper(c: char) { 'A' <= c <= 'Z' }
  predicate IsLetter(c: char) { IsLower(c) || IsUpper(c) }

  /** `toUpperCase` of a one-character string, for ASCII. */
  function ToUpper(c: char): (u: char)
    ensures IsLower(c) ==> IsUpper(u) && u as int == c as int - 32
    ensures !IsLower(c) ==> u == c
  {
    if IsLower(c) then (c as int - 32) as char else c
  }

  /** `toLowerCase` of one character, for ASCII. */
  function ToLowerChar(c: char): (l: char)
    ensures IsUpper(c) ==> IsLower(l) && l as int == c as int + 32
    ensures !IsUpper(c) ==> l == c
  {
    if IsUpper(c) then (c as int + 32) as char else c
  }

  /** `toLowerCase`, for ASCII. */
  function ToLower(s: string): (r: string)
    ensures |r| == |s| && forall i :: 0 <= i < |s| ==> r[i] == ToLowerChar(s[i])
  {
    if |s| == 0 then "" else [ToLowerChar(s[0])] + ToLower(s[1..])
  }

  /** `" ".repeat(n)` */
  function Spaces(n: nat): (s: string)
    ensures |s| == n && forall i :: 0 <= i < n ==> s[i] == ' '
  {
    if n == 0 then "" else " " + Spaces(n - 1)
  }

  /** `s.split(c)` for a one-character separator: never empty, no piece holds `c`. */
  function Split(s: string, c: char): (r: seq<string>)
    ensures |r| >= 1
    ensures forall i :: 0 <= i < |r| ==> c !in r[i]
  {
    if |s| == 0 then [""]
    else
      var rest := Split(s[1..], c);
      if s[0] == c then [""] + rest
      else [[s[0]] + rest[0]] + rest[1..]
  }

  /** `parts.join(sep)` */
  function Join(parts: seq<string>, sep: string): string
  {
    if |parts| == 0 then ""
    else if |parts| == 1 then parts[0]
    else parts[0] + sep + Join(parts[1..], sep)
  }

  /** No piece is longer than the string, and each is shorter when the separator occurs. */
  lemma {:induction false} SplitPiecesShorter(s: string, c: char)
    ensures forall i :: 0 <= i < |Split(s, c)| ==> |Split(s, c)[i]| + (if c in s then 1 else 0) <= |s|
  {
    if |s| > 0 {
      SplitPiecesShorter(s[1..], c);
      assert c in s <==> s[0] == c || c in s[1..];
    }
  }

  /** Splitting and joining back on the same character gives the original string. */
  lemma {:induction false} JoinSplit(s: string, c: char)
    ensures Join(Split(s, c), [c]) == s
  {
    if |s| > 0 {
      JoinSplit(s[1..], c);
      var rest := Split(s[1..], c);
      if s[0] == c {
        assert Join([""] + rest, [c]) == "" + [c] + Join(rest, [c]);
      } else {
        var r := Split(s, c);
        assert r == [[s[0]] + rest[0]] + rest[1..];
        if |rest| == 1 {
          assert r == [[s[0]] + rest[0]];
        } else {
          assert r[1..] == rest[1..];
          assert Join(rest, [c]) == rest[0] + [c] + Join(rest[1..], [c]);
        }
      }
    }
  }

  /** Joining pieces that do not contain the separator and splitting again gives the pieces back. */
  lemma {:induction false} SplitJoin(parts: seq<string>, c: char)
    requires |parts| >= 1
    requires forall i :: 0 <= i < |parts| ==> c !in parts[i]
    ensures Split(Join(parts, [c]), c) == parts
  {
    if |parts| == 1 {
      SplitNoSeparator(parts[0], c);
    } else {
      SplitJoin(parts[1..], c);
      var tail := [c] + Join(parts[1..], [c]);
      SplitPrefix(parts[0], tail, c);
      assert Join(parts, [c]) == parts[0] + tail;
      SplitLeadingSeparator(Join(parts[1..], [c]), c);
      assert [parts[0]] + parts[1..] == parts;
    }
  }

  lemma {:induction false} SplitNoSeparator(s: string, c: char)
    requires c !in s
    ensures Split(s, c) == [s]
  {
    if |s| > 0 {
      SplitNoSeparator(s[1..], c);
      assert [s[0]] + s[1..] == s;
    }
  }

  lemma SplitLeadingSeparator(s: string, c: char)
    ensures Split([c] + s, c) == [""] + Split(s, c)
  {
    assert ([c] + s)[1..] == s;
  }

  /** A separator-free prefix glues onto the first piece of what follows. */
  lemma {:induction false} SplitPrefix(p: string, s: string, c: char)
    requires c !in p
    requires |s| > 0 && s[0] == c
    ensures Split(p + s, c) == [p] + Split(s, c)[1..]
  {
    if |p| > 0 {
      SplitPrefix(p[1..], s, c);
      assert (p + s)[1..] == p[1..] + s;
      assert [p[0]] + p[1..] == p;
      var rest := Split(p[1..] + s, c);
      assert rest[0] == p[1..];
      assert rest[1..] == Split(s, c)[1..];
    } else {
      assert p + s == s;
      var r := Split(s, c);
      assert r == [""] + Split(s[1..], c);
    }
  }

  /** Concatenation of strings regroups freely. */
  lemma Assoc(a: string, b: string, c: string)
    ensures a + (b + c) == a + b + c
  {
  }

  /** Splitting at a separator splits the two sides independently. */
  lemma {:induction false} SplitAround(a: string, b: string, c: char)
    ensures Split(a + [c] + b, c) == Split(a, c) + Split(b, c)
  {
    if |a| == 0 {
      assert a + [c] + b == [c] + b;
      SplitLeadingSeparator(b, c);
    } else {
      var t := a[1..] + [c] + b;
      assert a + [c] + b == [a[0]] + t;
      assert a == [a[0]] + a[1..];
      SplitAround(a[1..], b, c);
      var xs, ys := Split(a[1..], c), Split(b, c);
      if a[0] == c {
        SplitLeadingSeparator(t, c);
        SplitLeadingSeparator(a[1..], c);
        assert [""] + (xs + ys) == ([""] + xs) + ys;
      } else {
        SplitCons(a[0], t, c);
        SplitCons(a[0], a[1..], c);
        GlueFirst([a[0]], xs, ys);
      }
    }
  }

  /** A character other than the separator goes onto the first piece. */
  lemma SplitCons(x: char, s: string, c: char)
    requires x != c
    ensures Split([x] + s, c) == [[x] + Split(s, c)[0]] + Split(s, c)[1..]
  {
    assert ([x] + s)[1..] == s;
  }

  lemma GlueFirst(x: string, p: seq<string>, q: seq<string>)
    requires |p| > 0
    ensures [x + (p + q)[0]] + (p + q)[1..] == ([x + p[0]] + p[1..]) + q
  {
    assert (p + q)[1..] == p[1..] + q;
  }

  /** Joining one more part adds the separator and the part. */
  lemma JoinSnoc(xs: seq<string>, y: string, sep: string)
    requires |xs| > 0
    ensures Join(xs + [y], sep) == Join(xs, sep) + sep + y
  {
    if |xs| > 1 {
      JoinSnoc(xs[1..], y, sep);
      assert (xs + [y])[1..] == xs[1..] + [y];
    }
  }

  /** Joining two non-empty lists is joining the joins. */
  lemma {:induction false} JoinAppend(xs: seq<string>, ys: seq<string>, sep: string)
    requires |xs| > 0 && |ys| > 0
    ensures Join(xs + ys, sep) == Join(xs, sep) + sep + Join(ys, sep)
  {
    if |xs| == 1 {
      assert (xs + ys)[1..] == ys;
    } else {
      JoinAppend(xs[1..], ys, sep);
      assert (xs + ys)[1..] == xs[1..] + ys;
    }
  }

  /** The summed lengths of the parts. */
  function TotalLength(parts: seq<string>): nat
  {
    if |parts| == 0 then 0 else |parts[0]| + TotalLength(parts[1..])
  }

  /** A join is as long as its parts and one separator between each two. */
  lemma {:induction false} JoinLength(parts: seq<string>, sep: string)
    requires |parts| > 0
    ensures |Join(parts, sep)| == TotalLength(parts) + (|parts| - 1) * |sep|
  {
    if |parts| > 1 {
      JoinLength(parts[1..], sep);
    }
  }

  /** Each line of a newline-free text, between two lines, becomes one line. */
  lemma LinesAround(a: string, mid: seq<string>, b: string)
    requires '\n' !in a && '\n' !in b && |mid| > 0
    requires forall i :: 0 <= i < |mid| ==> '\n' !in mid[i]
    ensures Split(a + "\n" + Join(mid, "\n") + "\n" + b, '\n') == [a] + mid + [b]
  {
    SplitAround(a + "\n" + Join(mid, "\n"), b, '\n');
    SplitAround(a, Join(mid, "\n"), '\n');
    SplitJoin(mid, '\n');
    SplitNoSeparator(a, '\n');
    SplitNoSeparator(b, '\n');
  }

  // ---- decimal numbers ----

  function DigitChar(d: nat): (c: char)
    requires d < 10
    ensures IsDigit(c)
  {
    ('0' as int + d) as char
  }

  function DigitValue(c: char): nat
    requires IsDigit(c)
  {
    c as int - '0' as int
  }

  /** `n.toString()` for a non-negative integer. */
  function NatToString(n: nat): (s: string)
    ensures |s| >= 1 && AllDigits(s)
  {
    if n < 10 then [DigitChar(n)] else NatToString(n / 10) + [DigitChar(n % 10)]
  }

  /** `i.toString()` for an integer. */
  function IntToString(i: int): string
  {
    if i < 0 then "-" + NatToString(-i) else NatToString(i)
  }

  predicate AllDigits(s: string) { forall k :: 0 <= k < |s| ==> IsDigit(s[k]) }

  /** The value of a run of decimal digits, which is what `parseInt` gives for it. */
  function DigitsValue(s: string): nat
    requires AllDigits(s)
  {
    if s == [] then 0 else DigitsValue(s[..|s| - 1]) * 10 + DigitValue(s[|s| - 1])
  }

  /** Rendering a number in decimal and reading the digits back gives the number. */
  lemma {:induction false} DigitsRoundTrip(n: nat)
    ensures DigitsValue(NatToString(n)) == n
  {
    var s := NatToString(n);
    if n >= 10 {
      DigitsRoundTrip(n / 10);
      assert s[..|s| - 1] == NatToString(n / 10);
    }
  }

  // ---- string order ----

  /** `a <= b` in the order `Array.prototype.sort` uses by default: character by character. */
  predicate LessEq(a: string, b: string)
  {
    |a| == 0 || (|b| > 0 && (a[0] < b[0] || (a[0] == b[0] && LessEq(a[1..], b[1..]))))
  }

  lemma {:induction false} LessEqTotal(a: string, b: string)
    ensures LessEq(a, b) || LessEq(b, a)
  {
    if |a| > 0 && |b| > 0 && a[0] == b[0] {
      LessEqTotal(a[1..], b[1..]);
    }
  }

  /** Each key is at most the next one. */
  ghost predicate SortedBy<T>(s: seq<T>, key: T -> string)
  {
    forall i :: 0 < i < |s| ==> LessEq(key(s[i - 1]), key(s[i]))
  }

  function InsertBy<T(==)>(x: T, s: seq<T>, key: T -> string): (r: seq<T>)
    requires SortedBy(s, key)
    ensures SortedBy(r, key)
    ensures multiset(r) == multiset(s) + multiset{x}
    ensures |r| == |s| + 1
    ensures |s| > 0 ==> r[0] == x || r[0] == s[0]
    ensures |s| == 0 ==> r == [x]
  {
    if |s| == 0 then [x]
    else if LessEq(key(x), key(s[0])) then [x] + s
    else
      LessEqTotal(key(x), key(s[0]));
      assert s == [s[0]] + s[1..];
      [s[0]] + InsertBy(x, s[1..], key)
  }

  /** Insertion sort on the keys: the result is ordered and holds the same elements. */
  function SortBy<T(==)>(s: seq<T>, key: T -> string): (r: seq<T>)
    ensures SortedBy(r, key)
    ensures multiset(r) == multiset(s)
  {
    if |s| == 0 then []
    else
      assert s == [s[0]] + s[1..];
      InsertBy(s[0], SortBy(s[1..], key), key)
  }

  function Identity(s: string): string { s }

  /** `[...names].sort()` */
  function Sort(s: seq<string>): (r: seq<string>)
    ensures SortedBy(r, Identity)
    ensures multiset(r) == multiset(s)
  {
    SortBy(s, Identity)
  }

  lemma {:induction false} LessEqAntisymmetric(a: string, b: string)
    requires LessEq(a, b) && LessEq(b, a)
    ensures a == b
  {
    if |a| > 0 && |b| > 0 {
      LessEqAntisymmetric(a[1..], b[1..]);
      assert a == [a[0]] + a[1..] && b == [b[0]] + b[1..];
    }
  }

  lemma {:induction false} LessEqTransitive(a: string, b: string, c: string)
    requires LessEq(a, b) && LessEq(b, c)
    ensures LessEq(a, c)
  {
    if |a| > 0 && |b| > 0 && |c| > 0 && a[0] == b[0] && b[0] == c[0] {
      LessEqTransitive(a[1..], b[1..], c[1..]);
    }
  }

  /** Each string comes strictly before every later one. */
  predicate Increasing(s: seq<string>)
  {
    forall i, j :: 0 <= i < j < |s| ==> LessEq(s[i], s[j]) && s[i] != s[j]
  }

  predicate IsLeast(m: string, s: set<string>)
  {
    forall y :: y in s ==> LessEq(m, y)
  }

  lemma {:induction false} LeastExists(s: set<string>)
    requires s != {}
    ensures exists m :: m in s && IsLeast(m, s)
    decreases |s|
  {
    var x :| x in s;
    if s != {x} {
      LeastExists(s - {x});
      var m :| m in s - {x} && IsLeast(m, s - {x});
      if LessEq(x, m) {
        forall y | y in s ensures LessEq(x, y) {
          if y == x { LessEqReflexive(x); } else { LessEqTransitive(x, m, y); }
        }
        assert x in s && IsLeast(x, s);
      } else {
        LessEqTotal(x, m);
        assert m in s && IsLeast(m, s);
      }
    } else {
      LessEqReflexive(x);
      assert x in s && IsLeast(x, s);
    }
  }

  lemma {:induction false} LessEqReflexive(a: string)
    ensures LessEq(a, a)
  {
    if |a| > 0 { LessEqReflexive(a[1..]); }
  }

  /** `[...set].sort()`: the elements of a set of strings in increasing order. */
  function SortSet(s: set<string>): (r: seq<string>)
    ensures |r| == |s|
    ensures forall x :: x in r <==> x in s
    ensures Increasing(r)
    decreases |s|
  {
    if s == {} then []
    else
      LeastExists(s);
      assert forall a, b :: a in s && b in s && IsLeast(a, s) && IsLeast(b, s) ==> a == b by {
        forall a, b | a in s && b in s && IsLeast(a, s) && IsLeast(b, s) ensures a == b {
          LessEqAntisymmetric(a, b);
        }
      }
      var m :| m in s && IsLeast(m, s);
      var rest := SortSet(s - {m});
      IncreasingCons(m, rest, s);
      [m] + rest
  }

  /** The least element in front of an increasing list of the other elements keeps it increasing. */
  lemma IncreasingCons(m: string, rest: seq<string>, s: set<string>)
    requires IsLeast(m, s) && Increasing(rest)
    requires forall x :: x in rest ==> x in s && x != m
    ensures Increasing([m] + rest)
  {
    var r := [m] + rest;
    forall i, j | 0 <= i < j < |r| ensures LessEq(r[i], r[j]) && r[i] != r[j] {
      if i > 0 {
        assert r[i] == rest[i - 1] && r[j] == rest[j - 1];
      } else {
        assert r[j] == rest[j - 1] && rest[j - 1] in rest;
      }
    }
  }
}
