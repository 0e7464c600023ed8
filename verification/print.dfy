/**
 * `printValue` and `printProgram` (src/print.ts): the Python source text of the values
 * a generated program is made of. A call is an object with a string `method`, an array
 * `params` and a string `returns`; it prints as `method(p1, p2)`. Lists print in square
 * brackets, other objects in braces, `null` as `None`, booleans as `True`/`False`, and a
 * string is quoted unless it looks like an enum member.
 */
module PythonPrint {
  import opened Wrappers
  import opened Strings

  /** The values a program holds; an object is its entries in order, a tuple is a list. */
  datatype PyValue =
    | PyNone
    | PyBool(b: bool)
    | PyInt(n: int)
    | PyStr(s: string)
    | PyList(items: seq<PyValue>)
    | PyDict(entries: seq<(string, PyValue)>)

  /** The values of `Directions` (src/types/directions.ts). */
  const Directions: set<string> := {"North", "East", "South", "West"}

  /** The call object the generated wrappers build: `{ method, params, returns }`. */
  function Call(name: string, params: seq<PyValue>, ret: string): PyValue
  {
    PyDict([("method", PyStr(name)), ("params", PyList(params)), ("returns", PyStr(ret))])
  }

  // ---- recognising a call ----

  /** The first entry with key `key`. */
  function Find(entries: seq<(string, PyValue)>, key: string): (r: Option<nat>)
    ensures r.None? <==> forall i :: 0 <= i < |entries| ==> entries[i].0 != key
    ensures r.Some? ==>
      r.value < |entries| && entries[r.value].0 == key && forall i :: 0 <= i < r.value ==> entries[i].0 != key
  {
    if |entries| == 0 then None
    else if entries[0].0 == key then Some(0)
    else
      match Find(entries[1..], key)
      case None => None
      case Some(j) => Some(j + 1)
  }

  /** The value of `key`, read as `value[key]` reads an object. */
  function Get(entries: seq<(string, PyValue)>, key: string): Option<PyValue>
  {
    match Find(entries, key)
    case None => None
    case Some(i) => Some(entries[i].1)
  }

  /** The test at the head of `printValue`: a string `method`, an array `params`, a string `returns`. */
  predicate IsCall(entries: seq<(string, PyValue)>)
  {
    var name, params, ret := Get(entries, "method"), Get(entries, "params"), Get(entries, "returns");
    name.Some? && name.value.PyStr? && params.Some? && params.value.PyList?
    && ret.Some? && ret.value.PyStr?
  }

  /** Where the method name and the parameters of a call object are. */
  function CallIndices(entries: seq<(string, PyValue)>): (r: Option<(nat, nat)>)
    ensures r.Some? <==> IsCall(entries)
    ensures r.Some? ==>
      (r.value.0 < |entries| && r.value.1 < |entries|
       && Get(entries, "method") == Some(entries[r.value.0].1) && entries[r.value.0].1.PyStr?
       && Get(entries, "params") == Some(entries[r.value.1].1) && entries[r.value.1].1.PyList?)
  {
    match (Find(entries, "method"), Find(entries, "params"), Find(entries, "returns"))
    case (Some(m), Some(p), Some(t)) =>
      if entries[m].1.PyStr? && entries[p].1.PyList? && entries[t].1.PyStr? then Some((m, p)) else None
    case _ => None
  }

  // ---- printing ----

  /** The test that leaves a string unquoted: a direction, or a dotted name whose first character does not change when upper-cased. */
  predicate IsEnumLike(s: string)
  {
    s in Directions || ('.' in s && |s| > 0 && ToUpper(s[0]) == s[0])
  }

  /** A string: as it is when it looks like an enum member, otherwise between double quotes, without escaping. */
  function PrintString(s: string): (r: string)
    ensures r == s <==> IsEnumLike(s)
    ensures r != s ==> |r| == |s| + 2 && r[0] == '"' && r[|r| - 1] == '"' && r[1..|r| - 1] == s
  {
    if IsEnumLike(s) then s else "\"" + s + "\""
  }

  /** `printValue(value)` */
  function PrintValue(v: PyValue): string
    decreases v, 1
  {
    match v
    case PyDict(entries) =>
      (match CallIndices(entries)
       case Some((m, p)) => entries[m].1.s + "(" + Join(PrintAll(entries[p].1.items, v), ", ") + ")"
       case None => "{ " + Join(PrintEntries(entries, v), ", ") + " }")
    case PyList(items) => "[" + Join(PrintAll(items, v), ", ") + "]"
    case PyNone => "None"
    case PyStr(s) => PrintString(s)
    case PyInt(n) => IntToString(n)
    case PyBool(b) => if b then "True" else "False"
  }

  /** The printed items, in order. */
  function PrintAll(items: seq<PyValue>, ghost parent: PyValue): (r: seq<string>)
    requires forall i :: 0 <= i < |items| ==> items[i] < parent
    ensures |r| == |items| && forall i :: 0 <= i < |items| ==> r[i] == PrintValue(items[i])
    decreases parent, 0, |items|
  {
    if |items| == 0 then [] else [PrintValue(items[0])] + PrintAll(items[1..], parent)
  }

  /** The printed entries `key: value`, in order; the key is printed as a string. */
  function PrintEntries(entries: seq<(string, PyValue)>, ghost parent: PyValue): (r: seq<string>)
    requires forall i :: 0 <= i < |entries| ==> entries[i].1 < parent
    ensures |r| == |entries|
      && forall i :: 0 <= i < |entries| ==> r[i] == PrintString(entries[i].0) + ": " + PrintValue(entries[i].1)
    decreases parent, 0, |entries|
  {
    if |entries| == 0 then []
    else [PrintString(entries[0].0) + ": " + PrintValue(entries[0].1)] + PrintEntries(entries[1..], parent)
  }

  /** The printed values of a list, one per item. */
  function Printed(items: seq<PyValue>): seq<string>
  {
    PrintAll(items, PyList(items))
  }

  /** `printProgram(program)`: one printed value per line. */
  function PrintProgram(program: seq<PyValue>): string
  {
    Join(Printed(program), "\n")
  }

  // ---- properties ----

  /** A call object prints as its method name and its printed parameters, comma-separated, in parentheses. */
  lemma CallPrinted(name: string, params: seq<PyValue>, ret: string)
    ensures PrintValue(Call(name, params, ret)) == name + "(" + Join(Printed(params), ", ") + ")"
  {
    var v := Call(name, params, ret);
    var entries := v.entries;
    assert "params"[0] != "method"[0] && "returns"[0] != "method"[0] && "returns"[0] != "params"[0];
    assert Find(entries, "method") == Some(0);
    assert Find(entries, "params") == Some(1);
    assert Find(entries[2..], "returns") == Some(0);
    assert Find(entries[1..], "returns") == Some(1);
    assert Find(entries, "returns") == Some(2);
    assert PrintAll(params, v) == Printed(params);
  }

  /** An object without a `method` key is no call: it prints as `{ key: value, ... }`, in entry order. */
  lemma DictPrinted(entries: seq<(string, PyValue)>)
    requires forall i :: 0 <= i < |entries| ==> entries[i].0 != "method"
    ensures var r := PrintValue(PyDict(entries));
      var printed := PrintEntries(entries, PyDict(entries));
      r == "{ " + Join(printed, ", ") + " }"
      && forall i :: 0 <= i < |entries| ==> printed[i] == PrintString(entries[i].0) + ": " + PrintValue(entries[i].1)
  {
  }

  /** A non-negative integer prints as decimal digits that read back as the integer; a negative one with a minus sign in front. */
  lemma IntPrinted(n: int)
    ensures var r := PrintValue(PyInt(n));
      if n >= 0 then AllDigits(r) && DigitsValue(r) == n
      else r[0] == '-' && AllDigits(r[1..]) && DigitsValue(r[1..]) == -n
  {
    if n >= 0 {
      DigitsRoundTrip(n);
    } else {
      var r := PrintValue(PyInt(n));
      assert r[1..] == NatToString(-n);
      DigitsRoundTrip(-n);
    }
  }

  /** No string anywhere inside the value, key or method name, holds a newline. */
  predicate NoNewlines(v: PyValue)
  {
    match v
    case PyStr(s) => '\n' !in s
    case PyList(items) => forall i :: 0 <= i < |items| ==> NoNewlines(items[i])
    case PyDict(entries) => forall i :: 0 <= i < |entries| ==> '\n' !in entries[i].0 && NoNewlines(entries[i].1)
    case _ => true
  }

  /** A value with no newline inside prints on one line. */
  lemma {:induction false} PrintValueOneLine(v: PyValue)
    requires NoNewlines(v)
    ensures '\n' !in PrintValue(v)
    decreases v, 2
  {
    match v
    case PyDict(entries) =>
      DictOneLine(entries, v);
    case PyList(items) =>
      PrintAllOneLine(items, v);
      NoNewlineJoin(PrintAll(items, v), ", ");
    case PyInt(n) =>
      IntOneLine(n);
    case _ =>
  }

  lemma {:induction false} DictOneLine(entries: seq<(string, PyValue)>, v: PyValue)
    requires v == PyDict(entries) && NoNewlines(v)
    ensures '\n' !in PrintValue(v)
    decreases v, 1
  {
    match CallIndices(entries) {
      case Some((m, p)) =>
        var items := entries[p].1.items;
        assert forall i :: 0 <= i < |items| ==> items[i] < v;
        PrintAllOneLine(items, v);
        NoNewlineJoin(PrintAll(items, v), ", ");
      case None =>
        PrintEntriesOneLine(entries, v);
        NoNewlineJoin(PrintEntries(entries, v), ", ");
    }
  }

  lemma IntOneLine(n: int)
    ensures '\n' !in IntToString(n)
  {
    var digits := NatToString(if n < 0 then -n else n);
    assert forall k :: 0 <= k < |digits| ==> IsDigit(digits[k]);
  }

  lemma EntryOneLine(key: string, value: string)
    requires '\n' !in key && '\n' !in value
    ensures '\n' !in PrintString(key) + ": " + value
  {
  }

  lemma {:induction false} PrintAllOneLine(items: seq<PyValue>, parent: PyValue)
    requires forall i :: 0 <= i < |items| ==> items[i] < parent && NoNewlines(items[i])
    ensures forall i :: 0 <= i < |items| ==> '\n' !in PrintAll(items, parent)[i]
    decreases parent, 0
  {
    forall i | 0 <= i < |items| ensures '\n' !in PrintAll(items, parent)[i] {
      PrintValueOneLine(items[i]);
    }
  }

  lemma {:induction false} PrintEntriesOneLine(entries: seq<(string, PyValue)>, parent: PyValue)
    requires forall i :: 0 <= i < |entries| ==> entries[i].1 < parent && '\n' !in entries[i].0 && NoNewlines(entries[i].1)
    ensures forall i :: 0 <= i < |entries| ==> '\n' !in PrintEntries(entries, parent)[i]
    decreases parent, 0
  {
    forall i | 0 <= i < |entries| ensures '\n' !in PrintEntries(entries, parent)[i] {
      PrintValueOneLine(entries[i].1);
      EntryOneLine(entries[i].0, PrintValue(entries[i].1));
    }
  }

  lemma {:induction false} NoNewlineJoin(parts: seq<string>, sep: string)
    requires '\n' !in sep && forall i :: 0 <= i < |parts| ==> '\n' !in parts[i]
    ensures '\n' !in Join(parts, sep)
  {
    if |parts| > 1 {
      NoNewlineJoin(parts[1..], sep);
    }
  }

  /** The lines of a printed program are the printed calls, one per line, when no string inside holds a newline. */
  lemma ProgramLines(program: seq<PyValue>)
    requires |program| > 0
    requires forall i :: 0 <= i < |program| ==> NoNewlines(program[i])
    ensures Split(PrintProgram(program), '\n') == Printed(program)
  {
    PrintAllOneLine(program, PyList(program));
    SplitJoin(Printed(program), '\n');
  }

  /** An empty program prints as the empty string. */
  lemma EmptyProgram()
    ensures PrintProgram([]) == ""
  {
  }

  // ---- the values of src/index.ts ----

  /** `move(North)` keeps the direction bare. */
  lemma MovePrinted()
    ensures PrintValue(Call("move", [PyStr("North")], "bool")) == "move(North)"
  {
    CallPrinted("move", [PyStr("North")], "bool");
    assert PrintValue(PyStr("North")) == "North";
  }

  /** `print(0, 0)` prints its numbers. */
  lemma PrintPrinted()
    ensures PrintValue(Call("print", [PyInt(0), PyInt(0)], "None")) == "print(0, 0)"
  {
    CallPrinted("print", [PyInt(0), PyInt(0)], "None");
    assert PrintValue(PyInt(0)) == "0";
  }

  /** A dotted name with an upper-case first letter stays bare. */
  lemma DottedNameBare()
    ensures PrintValue(PyStr("Entities.Bush")) == "Entities.Bush"
  {
    var s := "Entities.Bush";
    assert s[8] == '.';
  }

  /** A dotted name with a lower-case first letter is quoted. */
  lemma LowerDottedQuoted()
    ensures PrintValue(PyStr("hello.world")) == "\"hello.world\""
  {
    var s := "hello.world";
    assert |s| == 11;
  }

  /** A plain word that is not a direction is quoted. */
  lemma WordQuoted()
    ensures PrintValue(PyStr("Bush")) == "\"Bush\""
  {
    var s := "Bush";
    assert s[0] == 'B' && s[1] == 'u' && s[2] == 's' && s[3] == 'h';
  }
}
