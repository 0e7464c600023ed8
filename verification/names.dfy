/**
 * The string helpers of the builtins generator (src/parser/index.ts): Python type
 * names to TypeScript type names, enum member names to object keys, snake_case to
 * camelCase, Python default values to TypeScript ones, and the `|`-parts that
 * `registerImports` reads back from a mapped type.
 */
module BuiltinNames {
  import opened Wrappers
  import opened Strings
  import opened PrintUtil

  // ---- white space ----

  /** The characters `\s` and `trim` treat as white space, for ASCII: space, tab, line feed, vertical tab, form feed, carriage return. */
  predicate IsSpace(c: char)
  {
    c == ' ' || 9 <= c as int <= 13
  }

  predicate NoSpaces(s: string)
  {
    forall i :: 0 <= i < |s| ==> !IsSpace(s[i])
  }

  /** `s.replace(/\s+/g, "")` */
  function StripSpaces(s: string): (r: string)
    ensures NoSpaces(r) && |r| <= |s|
  {
    if |s| == 0 then "" else (if IsSpace(s[0]) then "" else [s[0]]) + StripSpaces(s[1..])
  }

  lemma {:induction false} StripSpacesAppend(a: string, b: string)
    ensures StripSpaces(a + b) == StripSpaces(a) + StripSpaces(b)
  {
    if |a| == 0 {
      assert a + b == b;
    } else {
      assert (a + b)[1..] == a[1..] + b;
      StripSpacesAppend(a[1..], b);
    }
  }

  lemma {:induction false} StripSpacesPlain(s: string)
    requires NoSpaces(s)
    ensures StripSpaces(s) == s
  {
    if |s| > 0 {
      StripSpacesPlain(s[1..]);
      assert [s[0]] + s[1..] == s;
    }
  }

  /** `s.trim()`: white space dropped from both ends. */
  function Trim(s: string): string
  {
    TrimEnd(TrimStart(s))
  }

  function TrimStart(s: string): string
  {
    if |s| > 0 && IsSpace(s[0]) then TrimStart(s[1..]) else s
  }

  function TrimEnd(s: string): string
  {
    if |s| > 0 && IsSpace(s[|s| - 1]) then TrimEnd(s[..|s| - 1]) else s
  }

  /** Each piece trimmed: the `map((part) => part.trim())` of `registerImports`. */
  function Trims(parts: seq<string>): (r: seq<string>)
    ensures |r| == |parts| && forall i :: 0 <= i < |parts| ==> r[i] == Trim(parts[i])
  {
    if |parts| == 0 then [] else [Trim(parts[0])] + Trims(parts[1..])
  }

  lemma TrimLeadingSpace(s: string)
    ensures Trim(" " + s) == Trim(s)
  {
    assert (" " + s)[1..] == s;
  }

  lemma TrimTrailingSpace(s: string)
    requires NoSpaces(s)
    ensures Trim(s + " ") == s
  {
    var t := s + " ";
    if |s| == 0 {
      assert TrimStart(t) == TrimStart("");
    } else {
      assert t[0] == s[0] && !IsSpace(s[0]);
      assert TrimStart(t) == t;
      assert t[..|t| - 1] == s;
      assert !IsSpace(s[|s| - 1]);
      assert TrimEnd(s) == s;
    }
  }

  // ---- mapPythonType ----

  /** `PYTHON_TYPE_MAP`: the builtin Python type names and their TypeScript names. */
  function PythonTypeMap(t: string): Option<string>
  {
    if t == "Any" then Some("Any")
    else if t == "None" then Some("None")
    else if t == "bool" then Some("Bool")
    else if t == "int" then Some("Int")
    else if t == "float" then Some("Float")
    else if t == "str" then Some("Str")
    else None
  }

  /** `PYTHON_TS_TYPES`, the values of `PYTHON_TYPE_MAP`. */
  const PythonTsTypes: set<string> := {"Any", "None", "Bool", "Int", "Float", "Str"}

  /** The TypeScript names are exactly the table's values. */
  lemma PythonTsTypesAreTableValues()
    ensures forall v :: v in PythonTsTypes <==> exists k :: PythonTypeMap(k) == Some(v)
  {
    assert PythonTypeMap("Any") == Some("Any");
    assert PythonTypeMap("None") == Some("None");
    assert PythonTypeMap("bool") == Some("Bool");
    assert PythonTypeMap("int") == Some("Int");
    assert PythonTypeMap("float") == Some("Float");
    assert PythonTypeMap("str") == Some("Str");
  }

  /**
   * One cleaned part: its name from the table, a known type as it is, otherwise `Any`.
   * The result is a TypeScript builtin name or a known type, and it is the part
   * itself only when the part is known and not in the table.
   */
  function MapName(cleaned: string, known: set<string>): (r: string)
    ensures r in PythonTsTypes || (r == cleaned && cleaned in known && PythonTypeMap(cleaned).None?)
    ensures cleaned !in known && PythonTypeMap(cleaned).None? ==> r == "Any"
  {
    match PythonTypeMap(cleaned)
    case Some(ts) => ts
    case None => if cleaned in known then cleaned else "Any"
  }

  /** `mapPythonType(type, knownTypes)`: white space dropped, each `|`-part mapped on its own. */
  function MapPythonType(t: string, known: set<string>): string
    decreases |t|, 1, 0
  {
    var cleaned := StripSpaces(t);
    if '|' in cleaned then
      SplitPiecesShorter(cleaned, '|');
      Join(MapParts(Split(cleaned, '|'), known, |cleaned|), " | ")
    else MapName(cleaned, known)
  }

  /** `parts.map((part) => mapPythonType(part, knownTypes))`; every part is shorter than `bound`. */
  function MapParts(parts: seq<string>, known: set<string>, ghost bound: nat): (r: seq<string>)
    requires forall i :: 0 <= i < |parts| ==> |parts[i]| < bound
    ensures |r| == |parts|
    decreases bound, 0, |parts|
  {
    if |parts| == 0 then [] else [MapPythonType(parts[0], known)] + MapParts(parts[1..], known, bound)
  }

  /** Each part mapped by `MapName` alone. */
  function MapNames(parts: seq<string>, known: set<string>): (r: seq<string>)
    ensures |r| == |parts| && forall i :: 0 <= i < |parts| ==> r[i] == MapName(parts[i], known)
  {
    if |parts| == 0 then [] else [MapName(parts[0], known)] + MapNames(parts[1..], known)
  }

  /** The mapped names of a type's cleaned `|`-parts, in order. */
  function Pieces(t: string, known: set<string>): seq<string>
  {
    MapNames(Split(StripSpaces(t), '|'), known)
  }

  lemma {:induction false} MapPartsPlain(parts: seq<string>, known: set<string>, bound: nat)
    requires forall i :: 0 <= i < |parts| ==> |parts[i]| < bound && '|' !in parts[i] && NoSpaces(parts[i])
    ensures MapParts(parts, known, bound) == MapNames(parts, known)
  {
    if |parts| > 0 {
      MapPartsPlain(parts[1..], known, bound);
      StripSpacesPlain(parts[0]);
    }
  }

  /**
   * Reference form of `mapPythonType`: the mapped names of the cleaned parts joined
   * with " | ". The recursion bottoms out after one level, since a part holds no `|`.
   */
  lemma MapPythonTypeIsPieces(t: string, known: set<string>)
    ensures MapPythonType(t, known) == Join(Pieces(t, known), " | ")
  {
    var cleaned := StripSpaces(t);
    if '|' in cleaned {
      SplitPiecesShorter(cleaned, '|');
      var parts := Split(cleaned, '|');
      forall i | 0 <= i < |parts| ensures NoSpaces(parts[i]) {
        PieceNoSpaces(cleaned, '|', i);
      }
      MapPartsPlain(parts, known, |cleaned|);
    } else {
      SplitNoSeparator(cleaned, '|');
    }
  }

  lemma PieceNoSpaces(s: string, c: char, i: nat)
    requires NoSpaces(s) && i < |Split(s, c)|
    ensures NoSpaces(Split(s, c)[i])
  {
    var p := Split(s, c)[i];
    SplitPieceIn(s, c, i);
    forall k | 0 <= k < |p| ensures !IsSpace(p[k]) {
      assert p[k] in s;
      var j :| 0 <= j < |s| && s[j] == p[k];
    }
  }

  /** White space anywhere in the type is ignored. */
  lemma MapPythonTypeIgnoresSpace(a: string, w: char, b: string, known: set<string>)
    requires IsSpace(w)
    ensures MapPythonType(a + [w] + b, known) == MapPythonType(a + b, known)
  {
    StripSpacesAppend(a + [w], b);
    StripSpacesAppend(a, [w]);
    StripSpacesAppend(a, b);
    assert StripSpaces([w]) == "" + StripSpaces([w][1..]);
    assert StripSpaces(a + [w] + b) == StripSpaces(a) + StripSpaces(b);
  }

  /** A union maps each side on its own and joins them with " | ". */
  lemma MapPythonTypeUnion(a: string, b: string, known: set<string>)
    ensures MapPythonType(a + "|" + b, known) == MapPythonType(a, known) + " | " + MapPythonType(b, known)
  {
    var sa, sb := StripSpaces(a), StripSpaces(b);
    StripSpacesAppend(a + "|", b);
    StripSpacesAppend(a, "|");
    assert StripSpaces("|") == "|";
    SplitAround(sa, sb, '|');
    MapNamesAppend(Split(sa, '|'), Split(sb, '|'), known);
    JoinAppend(Pieces(a, known), Pieces(b, known), " | ");
    MapPythonTypeIsPieces(a + "|" + b, known);
    MapPythonTypeIsPieces(a, known);
    MapPythonTypeIsPieces(b, known);
  }

  lemma MapNamesAppend(p: seq<string>, q: seq<string>, known: set<string>)
    ensures MapNames(p + q, known) == MapNames(p, known) + MapNames(q, known)
  {
    var whole, parts := MapNames(p + q, known), MapNames(p, known) + MapNames(q, known);
    forall i | 0 <= i < |whole| ensures whole[i] == parts[i] {
      if i < |p| {
        assert (p + q)[i] == p[i];
      } else {
        assert (p + q)[i] == q[i - |p|];
      }
    }
  }

  /** Every mapped name is a TypeScript builtin name or a known type, with no `|` and no white space. */
  lemma PiecesInRange(t: string, known: set<string>)
    ensures |Pieces(t, known)| >= 1
    ensures forall i :: 0 <= i < |Pieces(t, known)| ==>
      var p := Pieces(t, known)[i];
      (p in PythonTsTypes || p in known) && '|' !in p && NoSpaces(p)
  {
    var cleaned := StripSpaces(t);
    var parts := Split(cleaned, '|');
    TsTypesPlain();
    forall i | 0 <= i < |parts|
      ensures var p := MapName(parts[i], known);
        (p in PythonTsTypes || p in known) && '|' !in p && NoSpaces(p)
    {
      PieceNoSpaces(cleaned, '|', i);
    }
  }

  /** The TypeScript names hold no `|` and no white space. */
  lemma TsTypesPlain()
    ensures forall s :: s in PythonTsTypes ==> '|' !in s && NoSpaces(s)
  {
  }

  /** The `|`-parts of a type, trimmed: what `registerImports` iterates over. */
  function Parts(tsType: string): seq<string>
  {
    Trims(Split(tsType, '|'))
  }

  /** Reading back the output of `MapPythonType` gives exactly its mapped names. */
  lemma RegisterSeesPieces(t: string, known: set<string>)
    ensures Parts(MapPythonType(t, known)) == Pieces(t, known)
  {
    MapPythonTypeIsPieces(t, known);
    PiecesInRange(t, known);
    SplitUnion(Pieces(t, known));
  }

  lemma {:induction false} SplitUnion(pieces: seq<string>)
    requires |pieces| >= 1
    requires forall i :: 0 <= i < |pieces| ==> '|' !in pieces[i] && NoSpaces(pieces[i])
    ensures Parts(Join(pieces, " | ")) == pieces
  {
    var p := pieces[0];
    if |pieces| == 1 {
      SplitNoSeparator(p, '|');
    } else {
      var rest := Join(pieces[1..], " | ");
      SplitUnion(pieces[1..]);
      assert Join(pieces, " | ") == (p + " ") + ['|'] + (" " + rest);
      SplitAround(p + " ", " " + rest, '|');
      SplitNoSeparator(p + " ", '|');
      TrimTrailingSpace(p);
      LeadingSpaceParts(rest);
      assert pieces == [p] + pieces[1..];
    }
  }

  lemma LeadingSpaceParts(s: string)
    ensures Parts(" " + s) == Parts(s)
  {
    var r := Split(s, '|');
    SplitCons(' ', s, '|');
    TrimLeadingSpace(r[0]);
    assert Trims(Split(" " + s, '|')) == [Trim(r[0])] + Trims(r[1..]);
    assert Trims(r) == [Trim(r[0])] + Trims(r[1..]);
  }

  // ---- normalizeEnumKey ----

  /** `part[0].toUpperCase() + part.slice(1)` */
  function Capitalize(w: string): (r: string)
    requires |w| > 0
    ensures |r| == |w| && r[0] == ToUpper(w[0]) && r[1..] == w[1..]
  {
    [ToUpper(w[0])] + w[1..]
  }

  function CapitalizeAll(ws: seq<string>): (r: seq<string>)
    requires forall i :: 0 <= i < |ws| ==> |ws[i]| > 0
    ensures |r| == |ws| && forall i :: 0 <= i < |ws| ==> r[i] == Capitalize(ws[i])
  {
    if |ws| == 0 then [] else [Capitalize(ws[0])] + CapitalizeAll(ws[1..])
  }

  /** `normalizeEnumKey(name)`: the non-empty `_`-parts, each capitalised, run together. */
  function NormalizeEnumKey(name: string): string
  {
    Join(CapitalizeAll(NonEmpty(Split(name, '_'))), "")
  }

  /**
   * Reference definition, one character at a time: `_` is dropped, and the first
   * character of each run between underscores is upper-cased.
   */
  function KeyScan(s: string, start: bool): string
  {
    if |s| == 0 then ""
    else if s[0] == '_' then KeyScan(s[1..], true)
    else [if start then ToUpper(s[0]) else s[0]] + KeyScan(s[1..], false)
  }

  /** The split-filter-map-join pipeline is the one-pass scan. */
  lemma NormalizeEnumKeyIsScan(name: string)
    ensures NormalizeEnumKey(name) == KeyScan(name, true)
  {
    KeyScanPieces(name);
  }

  function RunTogether(pieces: seq<string>): string
  {
    Join(CapitalizeAll(NonEmpty(pieces)), "")
  }

  lemma {:induction false} KeyScanPieces(t: string)
    ensures KeyScan(t, false) == Split(t, '_')[0] + RunTogether(Split(t, '_')[1..])
    ensures KeyScan(t, true) == RunTogether(Split(t, '_'))
  {
    if |t| > 0 {
      KeyScanPieces(t[1..]);
      if t[0] == '_' {
        KeyScanUnderscore(t);
      } else {
        KeyScanOther(t);
      }
    }
  }

  lemma KeyScanUnderscore(t: string)
    requires |t| > 0 && t[0] == '_'
    requires KeyScan(t[1..], true) == RunTogether(Split(t[1..], '_'))
    ensures KeyScan(t, false) == Split(t, '_')[0] + RunTogether(Split(t, '_')[1..])
    ensures KeyScan(t, true) == RunTogether(Split(t, '_'))
  {
    var rest := Split(t[1..], '_');
    assert Split(t, '_') == [""] + rest;
    assert Split(t, '_')[1..] == rest;
    NonEmptyCons("", rest);
    assert NonEmpty([""] + rest) == NonEmpty(rest);
  }

  lemma KeyScanOther(t: string)
    requires |t| > 0 && t[0] != '_'
    requires KeyScan(t[1..], false) == Split(t[1..], '_')[0] + RunTogether(Split(t[1..], '_')[1..])
    ensures KeyScan(t, false) == Split(t, '_')[0] + RunTogether(Split(t, '_')[1..])
    ensures KeyScan(t, true) == RunTogether(Split(t, '_'))
  {
    var rest := Split(t[1..], '_');
    var first := [t[0]] + rest[0];
    var tail := RunTogether(rest[1..]);
    assert Split(t, '_') == [first] + rest[1..];
    assert Split(t, '_')[0] == first && Split(t, '_')[1..] == rest[1..];
    assert KeyScan(t, false) == [t[0]] + (rest[0] + tail);
    Assoc([t[0]], rest[0], tail);
    RunTogetherCons(first, rest[1..]);
    assert Capitalize(first) == [ToUpper(t[0])] + rest[0];
    assert KeyScan(t, true) == [ToUpper(t[0])] + (rest[0] + tail);
    Assoc([ToUpper(t[0])], rest[0], tail);
  }

  lemma NonEmptyCons(x: string, rest: seq<string>)
    ensures NonEmpty([x] + rest) == (if |x| > 0 then [x] else []) + NonEmpty(rest)
  {
    assert ([x] + rest)[1..] == rest;
  }

  lemma RunTogetherCons(x: string, rest: seq<string>)
    requires |x| > 0
    ensures RunTogether([x] + rest) == Capitalize(x) + RunTogether(rest)
  {
    NonEmptyCons(x, rest);
    var caps := CapitalizeAll(NonEmpty(rest));
    assert CapitalizeAll([x] + NonEmpty(rest)) == [Capitalize(x)] + caps;
    JoinEmptyCons(Capitalize(x), caps);
  }

  lemma JoinEmptyCons(x: string, rest: seq<string>)
    ensures Join([x] + rest, "") == x + Join(rest, "")
  {
    if |rest| > 0 {
      assert ([x] + rest)[1..] == rest;
    }
  }

  lemma {:induction false} KeyScanNoUnderscore(s: string, start: bool)
    ensures '_' !in KeyScan(s, start)
  {
    if |s| > 0 {
      KeyScanNoUnderscore(s[1..], s[0] == '_');
      KeyScanNoUnderscore(s[1..], true);
    }
  }

  /** Keys never contain `_`. */
  lemma NormalizeEnumKeyNoUnderscore(name: string)
    ensures '_' !in NormalizeEnumKey(name)
  {
    NormalizeEnumKeyIsScan(name);
    KeyScanNoUnderscore(name, true);
  }

  lemma {:induction false} KeyScanPlain(s: string)
    requires '_' !in s
    ensures KeyScan(s, false) == s
  {
    if |s| > 0 {
      KeyScanPlain(s[1..]);
      assert [s[0]] + s[1..] == s;
    }
  }

  lemma {:induction false} KeyScanFirstUpper(s: string)
    ensures var r := KeyScan(s, true); |r| > 0 ==> ToUpper(r[0]) == r[0]
  {
    if |s| > 0 && s[0] == '_' {
      KeyScanFirstUpper(s[1..]);
    }
  }

  /** Normalising a key twice is normalising it once. */
  lemma NormalizeEnumKeyIdempotent(name: string)
    ensures NormalizeEnumKey(NormalizeEnumKey(name)) == NormalizeEnumKey(name)
  {
    var r := NormalizeEnumKey(name);
    NormalizeEnumKeyIsScan(name);
    NormalizeEnumKeyIsScan(r);
    KeyScanNoUnderscore(name, true);
    KeyScanFirstUpper(name);
    if |r| > 0 {
      KeyScanPlain(r[1..]);
      assert KeyScan(r, true) == [r[0]] + r[1..];
    }
  }

  // ---- toCamel ----

  /** `name.replace(/_([a-zA-Z])/g, …)`: each `_` followed by a letter becomes that letter upper-cased, scanning left to right. */
  function ToCamel(s: string): string
  {
    if |s| == 0 then ""
    else if s[0] == '_' && |s| >= 2 && IsLetter(s[1]) then [ToUpper(s[1])] + ToCamel(s[2..])
    else [s[0]] + ToCamel(s[1..])
  }

  lemma {:induction false} ToCamelPlain(s: string)
    requires '_' !in s
    ensures ToCamel(s) == s
  {
    if |s| > 0 {
      ToCamelPlain(s[1..]);
      assert [s[0]] + s[1..] == s;
    }
  }

  /** A replacement never straddles a boundary after a character other than `_`. */
  lemma {:induction false} ToCamelAppend(a: string, b: string)
    requires |a| == 0 || a[|a| - 1] != '_'
    ensures ToCamel(a + b) == ToCamel(a) + ToCamel(b)
  {
    if |a| == 0 {
      assert a + b == b;
    } else {
      var ab := a + b;
      assert ab[0] == a[0];
      if a[0] == '_' && |a| >= 2 && IsLetter(a[1]) {
        assert ab[1] == a[1];
        assert ab[2..] == a[2..] + b;
        ToCamelAppend(a[2..], b);
        var x := [ToUpper(a[1])];
        assert ToCamel(ab) == x + (ToCamel(a[2..]) + ToCamel(b));
        assert ToCamel(a) == x + ToCamel(a[2..]);
        Assoc(x, ToCamel(a[2..]), ToCamel(b));
      } else {
        assert a[0] == '_' ==> |a| >= 2 && ab[1] == a[1];
        assert ab[1..] == a[1..] + b;
        ToCamelAppend(a[1..], b);
        var x := [a[0]];
        assert ToCamel(ab) == x + (ToCamel(a[1..]) + ToCamel(b));
        assert ToCamel(a) == x + ToCamel(a[1..]);
        Assoc(x, ToCamel(a[1..]), ToCamel(b));
      }
    }
  }

  /** A snake_case word list: non-empty words without `_`, each starting with a letter. */
  predicate SnakeWords(ws: seq<string>)
  {
    forall i :: 0 <= i < |ws| ==> SnakeWord(ws[i])
  }

  predicate SnakeWord(w: string)
  {
    |w| > 0 && '_' !in w && IsLetter(w[0])
  }

  lemma {:induction false} ToCamelTail(ws: seq<string>)
    requires |ws| >= 1 && SnakeWords(ws)
    ensures ToCamel("_" + Join(ws, "_")) == Join(CapitalizeAll(ws), "")
  {
    var w := ws[0];
    assert SnakeWord(w);
    ToCamelPlain(w[1..]);
    JoinEmptyCons(Capitalize(w), CapitalizeAll(ws[1..]));
    assert CapitalizeAll(ws) == [Capitalize(w)] + CapitalizeAll(ws[1..]);
    var tail := if |ws| == 1 then "" else "_" + Join(ws[1..], "_");
    JoinCons(ws, "_");
    UnderscoreHead(w, tail);
    ToCamelLetter(w[0], w[1..] + tail);
    ToCamelAppend(w[1..], tail);
    var rest := Join(CapitalizeAll(ws[1..]), "");
    if |ws| > 1 {
      ToCamelTail(ws[1..]);
    } else {
      assert ToCamel(tail) == rest;
    }
    var u := [ToUpper(w[0])];
    assert ToCamel("_" + Join(ws, "_")) == u + (w[1..] + rest);
    assert Join(CapitalizeAll(ws), "") == (u + w[1..]) + rest;
    Assoc(u, w[1..], rest);
  }

  /** The first word, then the separator and the rest when there is more than one. */
  lemma JoinCons(ws: seq<string>, sep: string)
    requires |ws| >= 1
    ensures Join(ws, sep) == ws[0] + (if |ws| == 1 then "" else sep + Join(ws[1..], sep))
  {
    if |ws| > 1 {
      var j := Join(ws[1..], sep);
      assert Join(ws, sep) == ws[0] + sep + j;
      assert ws[0] + sep + j == ws[0] + (sep + j);
    }
  }

  lemma UnderscoreHead(w: string, tail: string)
    requires |w| > 0
    ensures "_" + (w + tail) == ['_', w[0]] + (w[1..] + tail)
  {
    assert w == [w[0]] + w[1..];
  }

  lemma ToCamelLetter(x: char, t: string)
    requires IsLetter(x)
    ensures ToCamel(['_', x] + t) == [ToUpper(x)] + ToCamel(t)
  {
    assert (['_', x] + t)[2..] == t;
  }

  /** snake_case names become camelCase: `do_thing` → `doThing`. */
  lemma ToCamelOfSnake(ws: seq<string>)
    requires |ws| >= 1 && SnakeWords(ws)
    ensures ToCamel(Join(ws, "_")) == ws[0] + Join(CapitalizeAll(ws[1..]), "")
  {
    assert SnakeWord(ws[0]);
    ToCamelPlain(ws[0]);
    JoinCons(ws, "_");
    if |ws| > 1 {
      ToCamelTail(ws[1..]);
      ToCamelAppend(ws[0], "_" + Join(ws[1..], "_"));
    }
  }

  /** On snake_case names the enum key is the camelCase name with its first letter upper-cased. */
  lemma NormalizeEnumKeyOfSnake(ws: seq<string>)
    requires |ws| >= 1 && SnakeWords(ws)
    ensures NormalizeEnumKey(Join(ws, "_")) == Capitalize(ws[0]) + Join(CapitalizeAll(ws[1..]), "")
  {
    SplitJoin(ws, '_');
    NonEmptyOfNonEmpty(ws);
    JoinEmptyCons(Capitalize(ws[0]), CapitalizeAll(ws[1..]));
    assert CapitalizeAll(ws) == [Capitalize(ws[0])] + CapitalizeAll(ws[1..]);
  }

  lemma {:induction false} NonEmptyOfNonEmpty(ws: seq<string>)
    requires forall i :: 0 <= i < |ws| ==> |ws[i]| > 0
    ensures NonEmpty(ws) == ws
  {
    if |ws| > 0 {
      NonEmptyOfNonEmpty(ws[1..]);
      assert [ws[0]] + ws[1..] == ws;
    }
  }

  // ---- mapDefault ----

  /**
   * A parameter's default as the `constant` parser reads it: `None`, `True` and
   * `False` become JavaScript's `null`, `true` and `false`, a number its value,
   * a string literal its text.
   */
  datatype Constant = NullConst | BoolConst(b: bool) | NumConst(n: nat) | StrConst(s: string)

  /** JavaScript truthiness: `null`, `false`, `0` and the empty string are falsy. */
  predicate JsTruthy(c: Constant)
  {
    match c
    case NullConst => false
    case BoolConst(b) => b
    case NumConst(n) => n != 0
    case StrConst(s) => |s| > 0
  }

  /** The text a template literal `${c}` gives. */
  function Interpolated(c: Constant): (r: string)
    ensures JsTruthy(c) ==> |r| > 0
  {
    match c
    case NullConst => "null"
    case BoolConst(b) => if b then "true" else "false"
    case NumConst(n) => NatToString(n)
    case StrConst(s) => s
  }

  /**
   * `mapDefault`: it compares with the strings `None`, `True` and `False`, so it
   * only rewrites a string literal with that text; `null`, `true`, `false` and
   * numbers from the parser pass through, and truthiness never changes.
   */
  function MapDefault(d: Option<Constant>): (r: Option<Constant>)
    ensures r.None? <==> d.None?
    ensures d.Some? && !(d.value.StrConst? && d.value.s in {"None", "True", "False"}) ==> r == d
    ensures d.Some? && d.value.StrConst? ==> r.Some? && r.value.StrConst? && r.value.s !in {"None", "True", "False"}
    ensures r.Some? ==> (JsTruthy(r.value) <==> JsTruthy(d.value))
  {
    match d
    case None => None
    case Some(v) =>
      if v == StrConst("None") then Some(StrConst("null"))
      else if v == StrConst("True") then Some(StrConst("true"))
      else if v == StrConst("False") then Some(StrConst("false"))
      else Some(v)
  }

  // ---- the examples of the generator's test ----

  /** `Bar_Baz` becomes the key `BarBaz`. */
  lemma NormalizeBarBaz(name: string)
    requires name == "Bar_Baz"
    ensures NormalizeEnumKey(name) == "BarBaz"
  {
    NormalizeEnumKeyIsScan(name);
    ScanBarBaz(name);
  }

  /** The scan of the seven characters `B a r _ B a z`, one at a time. */
  lemma ScanBarBaz(s: string)
    requires |s| == 7 && s[0] == 'B' && s[1] == 'a' && s[2] == 'r' && s[3] == '_'
    requires s[4] == 'B' && s[5] == 'a' && s[6] == 'z'
    ensures KeyScan(s, true) == "BarBaz"
  {
    KeyScanStep(s[6..], false);
    assert s[6..][1..] == [];
    KeyScanStep(s[5..], false);
    assert s[5..][1..] == s[6..];
    KeyScanStep(s[4..], true);
    assert s[4..][1..] == s[5..];
    KeyScanStep(s[3..], false);
    assert s[3..][1..] == s[4..];
    KeyScanStep(s[2..], false);
    assert s[2..][1..] == s[3..];
    KeyScanStep(s[1..], false);
    assert s[1..][1..] == s[2..];
    KeyScanStep(s, true);
    assert KeyScan(s[4..], true) == "Baz";
    assert KeyScan(s, true) == "Bar" + "Baz";
  }

  lemma KeyScanStep(s: string, start: bool)
    requires |s| > 0
    ensures KeyScan(s, start)
         == if s[0] == '_' then KeyScan(s[1..], true) else [if start then ToUpper(s[0]) else s[0]] + KeyScan(s[1..], false)
  {
  }

  /** `do_thing` becomes the function name `doThing`. */
  lemma CamelDoThing()
    ensures ToCamel("do_thing") == "doThing"
  {
    var ws := ["do", "thing"];
    SnakePair("do", "thing");
    ToCamelOfSnake(ws);
    CapitalizedPair("do", "thing");
  }

  lemma SnakePair(a: string, b: string)
    requires SnakeWord(a) && SnakeWord(b)
    ensures SnakeWords([a, b]) && Join([a, b], "_") == a + "_" + b
  {
    assert [a, b][1..] == [b];
  }

  lemma CapitalizedPair(a: string, b: string)
    requires |a| > 0 && |b| > 0
    ensures Join(CapitalizeAll([a, b][1..]), "") == Capitalize(b)
  {
    assert [a, b][1..] == [b];
    assert CapitalizeAll([b]) == [Capitalize(b)];
  }
}
