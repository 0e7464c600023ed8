/**
 * `parseBuiltins` (src/parser/index.ts): from the enum-like classes and the methods
 * of the game's builtins file to TypeScript files — one file per enum with items,
 * and one `methods.ts` whose import block is sorted by module and ends with the
 * import of `call`. The imports the methods need are gathered by `registerImports`
 * into a set of Python type names and a map from module to names.
 */
module Builtins {
  import opened Wrappers
  import opened Strings
  import opened PrintUtil
  import opened TypeScript
  import opened BuiltinNames

  // ---- the parsed declarations ----

  /** `Name: Type` with its docstring, inside an enum-like class. */
  datatype EnumItem = EnumItem(name: string, itemType: string, docstring: string)

  datatype EnumDef = EnumDef(name: string, items: seq<EnumItem>)

  /** A parameter; its type is `Any` when the source gives none. */
  datatype MethodParam = MethodParam(name: string, paramType: string, default: Option<Constant>)

  /** A method; its return type is `Any` when the source gives none. */
  datatype MethodDef = MethodDef(name: string, params: seq<MethodParam>, returnType: string, docstring: string)

  datatype File = File(filename: string, content: string)

  // ---- registerImports ----

  /** `map.get(k) ?? new Set()` */
  function Lookup(m: map<string, set<string>>, k: string): set<string>
  {
    if k in m then m[k] else {}
  }

  /** One part: a Python type name is not filed here; a type with a non-empty module is added under it. */
  function FileOne(m: map<string, set<string>>, part: string, typeToModule: map<string, string>): map<string, set<string>>
  {
    if part in PythonTsTypes then m
    else if part in typeToModule && typeToModule[part] != "" then
      m[typeToModule[part] := Lookup(m, typeToModule[part]) + {part}]
    else m
  }

  /** The parts filed one after the other. */
  function FileAll(m: map<string, set<string>>, parts: seq<string>, typeToModule: map<string, string>): map<string, set<string>>
  {
    if |parts| == 0 then m
    else FileOne(FileAll(m, parts[..|parts| - 1], typeToModule), parts[|parts| - 1], typeToModule)
  }

  /** The Python type names among the parts. */
  function PythonPartsOf(parts: seq<string>): set<string>
  {
    set p | p in parts && p in PythonTsTypes
  }

  /** Whether a part is filed under a module. */
  predicate Filed(p: string, typeToModule: map<string, string>)
  {
    p !in PythonTsTypes && p in typeToModule && typeToModule[p] != ""
  }

  /** The parts filed under module `k`. */
  function FiledUnder(parts: seq<string>, typeToModule: map<string, string>, k: string): set<string>
  {
    set p | p in parts && Filed(p, typeToModule) && typeToModule[p] == k
  }

  /** The modules the parts are filed under. */
  function ModulesOf(parts: seq<string>, typeToModule: map<string, string>): set<string>
  {
    set p | p in parts && Filed(p, typeToModule) :: typeToModule[p]
  }

  /**
   * What filing does, whatever the order: the modules are the old ones and those of
   * the filed parts, and each module gains exactly the parts whose module it is.
   */
  lemma {:induction false} FileAllContents(m: map<string, set<string>>, parts: seq<string>, typeToModule: map<string, string>)
    ensures FileAll(m, parts, typeToModule).Keys == m.Keys + ModulesOf(parts, typeToModule)
    ensures forall k :: Lookup(FileAll(m, parts, typeToModule), k) == Lookup(m, k) + FiledUnder(parts, typeToModule, k)
  {
    if |parts| > 0 {
      var init, last := parts[..|parts| - 1], parts[|parts| - 1];
      FileAllContents(m, init, typeToModule);
      assert parts == init + [last];
      ModulesOfSnoc(init, last, typeToModule);
      forall k ensures Lookup(FileAll(m, parts, typeToModule), k) == Lookup(m, k) + FiledUnder(parts, typeToModule, k) {
        FiledUnderSnoc(init, last, typeToModule, k);
      }
    }
  }

  lemma FiledUnderSnoc(init: seq<string>, last: string, typeToModule: map<string, string>, k: string)
    ensures FiledUnder(init + [last], typeToModule, k)
      == FiledUnder(init, typeToModule, k) + (if Filed(last, typeToModule) && typeToModule[last] == k then {last} else {})
  {
    assert forall p :: p in init + [last] <==> p in init || p == last;
  }

  lemma ModulesOfSnoc(init: seq<string>, last: string, typeToModule: map<string, string>)
    ensures ModulesOf(init + [last], typeToModule)
      == ModulesOf(init, typeToModule) + (if Filed(last, typeToModule) then {typeToModule[last]} else {})
  {
    assert forall p :: p in init + [last] <==> p in init || p == last;
  }

  lemma PythonPartsSnoc(init: seq<string>, last: string)
    ensures PythonPartsOf(init + [last]) == PythonPartsOf(init) + (if last in PythonTsTypes then {last} else {})
  {
    assert forall p :: p in init + [last] <==> p in init || p == last;
  }

  /** Registration does not depend on the order or the repetition of the parts. */
  lemma FileAllOrderFree(m: map<string, set<string>>, p: seq<string>, q: seq<string>, typeToModule: map<string, string>)
    requires forall x :: x in p <==> x in q
    ensures FileAll(m, p, typeToModule) == FileAll(m, q, typeToModule)
  {
    FileAllContents(m, p, typeToModule);
    FileAllContents(m, q, typeToModule);
    var a, b := FileAll(m, p, typeToModule), FileAll(m, q, typeToModule);
    assert ModulesOf(p, typeToModule) == ModulesOf(q, typeToModule);
    forall k | k in a ensures a[k] == b[k] {
      assert FiledUnder(p, typeToModule, k) == FiledUnder(q, typeToModule, k);
      assert Lookup(a, k) == Lookup(b, k);
    }
  }

  lemma {:induction false} FileAllAppend(m: map<string, set<string>>, p: seq<string>, q: seq<string>, typeToModule: map<string, string>)
    ensures FileAll(m, p + q, typeToModule) == FileAll(FileAll(m, p, typeToModule), q, typeToModule)
    decreases |q|
  {
    if |q| == 0 {
      assert p + q == p;
    } else {
      var init := q[..|q| - 1];
      FileAllAppend(m, p, init, typeToModule);
      assert (p + q)[..|p + q| - 1] == p + init;
    }
  }

  /** Every name filed under a module is a type that maps to that module and is not a Python type. */
  ghost predicate Consistent(m: map<string, set<string>>, typeToModule: map<string, string>)
  {
    forall k, n :: k in m && n in m[k] ==> Filed(n, typeToModule) && typeToModule[n] == k
  }

  /** Under `./python.js` only Python type names; under any other module only the types whose enum lives there. */
  ghost predicate ImportsConsistent(imports: map<string, set<string>>, typeToModule: map<string, string>)
  {
    forall k, n :: k in imports && n in imports[k] ==>
      (k == "./python.js" && n in PythonTsTypes) || (Filed(n, typeToModule) && typeToModule[n] == k)
  }

  /** Filing keeps the table consistent. */
  lemma {:induction false} FileAllConsistent(m: map<string, set<string>>, parts: seq<string>, typeToModule: map<string, string>)
    requires Consistent(m, typeToModule)
    ensures Consistent(FileAll(m, parts, typeToModule), typeToModule)
  {
    if |parts| > 0 {
      FileAllConsistent(m, parts[..|parts| - 1], typeToModule);
      FileOneConsistent(FileAll(m, parts[..|parts| - 1], typeToModule), parts[|parts| - 1], typeToModule);
    }
  }

  lemma FileOneConsistent(m: map<string, set<string>>, part: string, typeToModule: map<string, string>)
    requires Consistent(m, typeToModule)
    ensures Consistent(FileOne(m, part, typeToModule), typeToModule)
  {
  }

  /** The imports `registerImports` gathers: Python type names, and the other names by module. */
  class ImportTable {
    var python: set<string>
    var others: map<string, set<string>>

    constructor()
      ensures python == {} && others == map[]
    {
      python := {};
      others := map[];
    }

    /** `registerImports(type, typeToModule, pythonTypeImports, otherImports)` */
    method Register(tsType: string, typeToModule: map<string, string>)
      modifies this
      ensures python == old(python) + PythonPartsOf(Parts(tsType))
      ensures others == FileAll(old(others), Parts(tsType), typeToModule)
    {
      RegisterParts(Parts(tsType), typeToModule);
    }

    /** The loop of `registerImports` over the trimmed `|`-parts of the type. */
    method RegisterParts(parts: seq<string>, typeToModule: map<string, string>)
      modifies this
      ensures python == old(python) + PythonPartsOf(parts)
      ensures others == FileAll(old(others), parts, typeToModule)
    {
      for i := 0 to |parts|
        invariant python == old(python) + PythonPartsOf(parts[..i])
        invariant others == FileAll(old(others), parts[..i], typeToModule)
      {
        var part := parts[i];
        assert parts[..i + 1] == parts[..i] + [part];
        PythonPartsSnoc(parts[..i], part);
        if part in PythonTsTypes {
          python := python + {part};
        } else if part in typeToModule {
          var source := typeToModule[part];
          if source != "" {
            var names := if source in others then others[source] else {};
            others := others[source := names + {part}];
          }
        }
      }
      assert parts[..|parts|] == parts;
    }
  }

  // ---- parseBuiltins ----

  /** `./${name.toLowerCase()}.js` */
  function ModulePath(name: string): string
  {
    "./" + ToLower(name) + ".js"
  }

  /** The base type of an enum, `items[0]?.type`, when it is truthy. */
  predicate HasBase(e: EnumDef)
  {
    |e.items| > 0 && e.items[0].itemType != ""
  }

  /** `typeToModule`: each enum's base type to the enum's module; a later enum wins. */
  function TypeToModule(enums: seq<EnumDef>): map<string, string>
  {
    if |enums| == 0 then map[]
    else
      var m := TypeToModule(enums[..|enums| - 1]);
      var e := enums[|enums| - 1];
      if HasBase(e) then m[e.items[0].itemType := ModulePath(e.name)] else m
  }

  /** Enum `e` has base type `t`. */
  predicate BaseIs(e: EnumDef, t: string)
  {
    HasBase(e) && e.items[0].itemType == t
  }

  /** Enum `i` has base type `t` and no later enum has. */
  predicate LastWithBase(enums: seq<EnumDef>, i: nat, t: string)
    requires i < |enums|
  {
    BaseIs(enums[i], t) && forall j :: i < j < |enums| ==> !BaseIs(enums[j], t)
  }

  /** Only base types map to a module. */
  lemma {:induction false} TypeToModuleKeys(enums: seq<EnumDef>, t: string)
    ensures t in TypeToModule(enums) <==> exists i :: 0 <= i < |enums| && BaseIs(enums[i], t)
  {
    if |enums| > 0 {
      var init := enums[..|enums| - 1];
      TypeToModuleKeys(init, t);
      if exists i :: 0 <= i < |init| && BaseIs(init[i], t) {
        var i :| 0 <= i < |init| && BaseIs(init[i], t);
        assert enums[i] == init[i];
      }
      if exists i :: 0 <= i < |enums| && BaseIs(enums[i], t) {
        var i :| 0 <= i < |enums| && BaseIs(enums[i], t);
        if i < |init| {
          assert init[i] == enums[i];
        }
      }
    }
  }

  /** A type maps to the module of the last enum with that base type. */
  lemma {:induction false} TypeToModuleLastWins(enums: seq<EnumDef>, t: string)
    requires t in TypeToModule(enums)
    ensures exists i :: 0 <= i < |enums| && LastWithBase(enums, i, t) && TypeToModule(enums)[t] == ModulePath(enums[i].name)
  {
    var last := |enums| - 1;
    if BaseIs(enums[last], t) {
      assert LastWithBase(enums, last, t);
    } else {
      var init := enums[..last];
      TypeToModuleLastWins(init, t);
      var i :| 0 <= i < |init| && LastWithBase(init, i, t) && TypeToModule(init)[t] == ModulePath(init[i].name);
      LastWithBaseSnoc(enums, i, t);
    }
  }

  lemma LastWithBaseSnoc(enums: seq<EnumDef>, i: nat, t: string)
    requires i + 1 < |enums| && LastWithBase(enums[..|enums| - 1], i, t)
    requires !BaseIs(enums[|enums| - 1], t)
    ensures LastWithBase(enums, i, t)
  {
    var init := enums[..|enums| - 1];
    assert enums[i] == init[i];
    forall j | i < j < |enums| ensures !BaseIs(enums[j], t) {
      if j < |init| {
        assert enums[j] == init[j];
      }
    }
  }

  /** The object entry of an item: the normalised key, the quoted name, the docstring. */
  function EnumEntry(item: EnumItem): (string, Entry)
  {
    (NormalizeEnumKey(item.name), Described(Some(item.docstring), Quote(item.name)))
  }

  function EnumEntries(items: seq<EnumItem>): (r: seq<(string, Entry)>)
    ensures |r| == |items|
  {
    if |items| == 0 then [] else [EnumEntry(items[0])] + EnumEntries(items[1..])
  }

  /** The four declarations of an enum's file, separated by blank lines. */
  function EnumContent(e: EnumDef): string
  {
    var baseType := if |e.items| > 0 then e.items[0].itemType else e.name;
    Join([
      Import(true, ["PythonType"], "./python.js"),
      Declaration(VariableForm(VariableProps(None, true, Const, e.name, ObjectLiteral(EnumEntries(e.items)), Some("const")))),
      Declaration(VariableForm(VariableProps(None, true, TypeAlias, "TS" + baseType,
        "(typeof " + e.name + ")[keyof typeof " + e.name + "]", None))),
      Declaration(VariableForm(VariableProps(None, true, TypeAlias, baseType,
        "PythonType<" + Quote(baseType) + ", TS" + baseType + ">", None)))
    ], "\n\n")
  }

  function EnumFile(e: EnumDef): File
  {
    File(ToLower(e.name) + ".ts", EnumContent(e))
  }

  /** The enum files, in order, skipping the enums with no items. */
  function EnumFiles(enums: seq<EnumDef>): seq<File>
  {
    if |enums| == 0 then []
    else (if |enums[0].items| > 0 then [EnumFile(enums[0])] else []) + EnumFiles(enums[1..])
  }

  /** A file per enum with items, and none for an enum with no items. */
  lemma EnumFilesExactly(enums: seq<EnumDef>)
    ensures forall f :: f in EnumFiles(enums) <==> exists i :: 0 <= i < |enums| && |enums[i].items| > 0 && f == EnumFile(enums[i])
  {
    forall i | 0 <= i < |enums| && |enums[i].items| > 0 {
      EnumFileIn(enums, i);
    }
    forall f | f in EnumFiles(enums) ensures exists i :: 0 <= i < |enums| && |enums[i].items| > 0 && f == EnumFile(enums[i]) {
      var i := EnumFileFrom(enums, f);
    }
  }

  lemma {:induction false} EnumFileIn(enums: seq<EnumDef>, i: nat)
    requires i < |enums| && |enums[i].items| > 0
    ensures EnumFile(enums[i]) in EnumFiles(enums)
  {
    if i > 0 {
      EnumFileIn(enums[1..], i - 1);
    }
  }

  lemma {:induction false} EnumFileFrom(enums: seq<EnumDef>, f: File) returns (i: nat)
    requires f in EnumFiles(enums)
    ensures i < |enums| && |enums[i].items| > 0 && f == EnumFile(enums[i])
  {
    if |enums[0].items| > 0 && f == EnumFile(enums[0]) {
      i := 0;
    } else {
      assert f in EnumFiles(enums[1..]);
      var j := EnumFileFrom(enums[1..], f);
      i := j + 1;
      assert enums[1..][j] == enums[i];
    }
  }

  /**
   * A mapped default handed to the printer, which only tests it for truthiness and
   * interpolates it: a falsy default is as good as none.
   */
  function DefaultText(d: Option<Constant>): (r: Option<string>)
    ensures Truthy(r) <==> d.Some? && JsTruthy(d.value)
    ensures Truthy(r) ==> r.value == Interpolated(d.value)
  {
    if d.Some? && JsTruthy(d.value) then Some(Interpolated(d.value)) else None
  }

  /** The parameters of a method's declaration: mapped types and defaults, destructured. */
  function MethodParams(ps: seq<MethodParam>, known: set<string>): (r: seq<Param>)
    ensures |r| == |ps|
    ensures forall i :: 0 <= i < |ps| ==>
      r[i] == Param(None, ps[i].name, MapPythonType(ps[i].paramType, known), DefaultText(MapDefault(ps[i].default)))
  {
    if |ps| == 0 then []
    else [Param(None, ps[0].name, MapPythonType(ps[0].paramType, known), DefaultText(MapDefault(ps[0].default)))] + MethodParams(ps[1..], known)
  }

  /**
   * A parameter whose default is falsy (`None`, `False`, `0`, `""`) prints as one
   * without a default: `def f(x: bool = False)` gives `{ x }: { x: boolean }`.
   */
  lemma FalsyDefaultIsDropped(p: MethodParam, known: set<string>)
    requires p.default.Some? && !JsTruthy(p.default.value)
    ensures var q := MethodParams([p], known)[0];
      Destructured(q) == p.name && Typed(q) == p.name + ": " + MapPythonType(p.paramType, known)
      && Positional(q) == p.name + ": " + MapPythonType(p.paramType, known)
  {
  }

  /** A truthy default prints as its interpolation, and marks the member optional. */
  lemma TruthyDefaultIsPrinted(p: MethodParam, known: set<string>)
    requires p.default.Some? && JsTruthy(p.default.value)
    ensures var q := MethodParams([p], known)[0];
      var text := Interpolated(MapDefault(p.default).value);
      Destructured(q) == p.name + " = " + text && Typed(q) == p.name + "?: " + MapPythonType(p.paramType, known)
  {
  }

  function ParamNames(ps: seq<MethodParam>): (r: seq<string>)
    ensures |r| == |ps| && forall i :: 0 <= i < |ps| ==> r[i] == ps[i].name
  {
    if |ps| == 0 then [] else [ps[0].name] + ParamNames(ps[1..])
  }

  /** `return call("name", [a, b], "returns");`, with `None` for an empty return type. */
  function CallBody(m: MethodDef): string
  {
    Return(Call("call", [], [Quote(m.name), ArrayLiteral(PlainAll(ParamNames(m.params))),
      Quote(if m.returnType == "" then "None" else m.returnType)]))
  }

  /** The exported, documented function for one method. */
  function MethodDeclaration(m: MethodDef, known: set<string>): string
  {
    Declaration(FunctionForm(FunctionProps(Some(m.docstring), true, ToCamel(m.name), [],
      MethodParams(m.params, known), Flag(true), Some(MapPythonType(m.returnType, known)), CallBody(m))))
  }

  /** The mapped types of a method in the order they are registered: parameters, then the return type. */
  function MethodTypes(m: MethodDef, known: set<string>): (r: seq<string>)
    ensures |r| == |m.params| + 1
  {
    ParamTypes(m.params, known) + [MapPythonType(m.returnType, known)]
  }

  function ParamTypes(ps: seq<MethodParam>, known: set<string>): (r: seq<string>)
    ensures |r| == |ps|
  {
    if |ps| == 0 then [] else ParamTypes(ps[..|ps| - 1], known) + [MapPythonType(ps[|ps| - 1].paramType, known)]
  }

  /** The parts of the types, one type after the other. */
  function PartsOfAll(types: seq<string>): seq<string>
  {
    if |types| == 0 then [] else PartsOfAll(types[..|types| - 1]) + Parts(types[|types| - 1])
  }

  /** The parts registered for the methods, in order. */
  function RegisteredParts(methods: seq<MethodDef>, known: set<string>): seq<string>
  {
    if |methods| == 0 then []
    else RegisteredParts(methods[..|methods| - 1], known) + PartsOfAll(MethodTypes(methods[|methods| - 1], known))
  }

  /** The final import table: the Python type names, when there are any, replace the entry for `./python.js`. */
  function FinalImports(methods: seq<MethodDef>, typeToModule: map<string, string>): map<string, set<string>>
  {
    var parts := RegisteredParts(methods, typeToModule.Keys);
    WithPython(FileAll(map[], parts, typeToModule), PythonPartsOf(parts))
  }

  function WithPython(others: map<string, set<string>>, python: set<string>): map<string, set<string>>
  {
    if python != {} then others["./python.js" := python] else others
  }

  const CallImport: string := Import(false, ["call"], "./python.js")

  function TypeImports(imports: map<string, set<string>>, modules: seq<string>): (r: seq<string>)
    requires forall i :: 0 <= i < |modules| ==> modules[i] in imports
    ensures |r| == |modules|
  {
    if |modules| == 0 then []
    else [Import(true, SortSet(imports[modules[0]]), modules[0])] + TypeImports(imports, modules[1..])
  }

  /** The import lines: a type import per module, then the import of `call`. */
  function ImportLines(imports: map<string, set<string>>): (r: seq<string>)
    ensures |r| == |imports| + 1 && r[|r| - 1] == CallImport
  {
    TypeImports(imports, SortSet(imports.Keys)) + [CallImport]
  }

  /**
   * Line `i` of the import block imports, as types, the names of the `i`-th module in
   * increasing order of module, in increasing order of name; every module has one line.
   */
  lemma ImportLine(imports: map<string, set<string>>, i: nat)
    requires i < |imports|
    ensures var modules := SortSet(imports.Keys);
      Increasing(modules) && (forall k :: k in modules <==> k in imports)
      && ImportLines(imports)[i] == Import(true, SortSet(imports[modules[i]]), modules[i])
      && Increasing(SortSet(imports[modules[i]]))
  {
    var modules := SortSet(imports.Keys);
    TypeImportAt(imports, modules, i);
  }

  lemma {:induction false} TypeImportAt(imports: map<string, set<string>>, modules: seq<string>, i: nat)
    requires forall j :: 0 <= j < |modules| ==> modules[j] in imports
    requires i < |modules|
    ensures TypeImports(imports, modules)[i] == Import(true, SortSet(imports[modules[i]]), modules[i])
  {
    if i > 0 {
      TypeImportAt(imports, modules[1..], i - 1);
    }
  }

  function MethodDeclarations(methods: seq<MethodDef>, known: set<string>): (r: seq<string>)
    ensures |r| == |methods|
  {
    if |methods| == 0 then [] else MethodDeclarations(methods[..|methods| - 1], known) + [MethodDeclaration(methods[|methods| - 1], known)]
  }

  /** `methods.ts`: the import block, a blank line, the declarations separated by blank lines. */
  function MethodsFile(methods: seq<MethodDef>, typeToModule: map<string, string>): File
  {
    var importBlock := Join(ImportLines(FinalImports(methods, typeToModule)), "\n");
    var declarations := Join(MethodDeclarations(methods, typeToModule.Keys), "\n\n");
    File("methods.ts", Join(NonEmpty([importBlock, declarations]), "\n\n"))
  }

  /** What `parseBuiltins` returns for the parsed enums and methods. */
  function BuiltinFiles(enums: seq<EnumDef>, methods: seq<MethodDef>): seq<File>
  {
    EnumFiles(enums) + (if |methods| > 0 then [MethodsFile(methods, TypeToModule(enums))] else [])
  }

  /**
   * The enum files come first, one for each enum with items and none for an enum
   * without; `methods.ts` follows exactly when there are methods.
   */
  lemma BuiltinFilesShape(enums: seq<EnumDef>, methods: seq<MethodDef>)
    ensures var files := BuiltinFiles(enums, methods);
      var n := |EnumFiles(enums)|;
      |files| == n + (if |methods| > 0 then 1 else 0)
      && (forall f :: f in files[..n] <==> exists i :: 0 <= i < |enums| && |enums[i].items| > 0 && f == EnumFile(enums[i]))
      && (|methods| > 0 ==> files[n] == MethodsFile(methods, TypeToModule(enums)))
  {
    EnumFilesExactly(enums);
    var files := BuiltinFiles(enums, methods);
    assert files[..|EnumFiles(enums)|] == EnumFiles(enums);
  }

  /**
   * The import table of `methods.ts` files only what belongs together: under
   * `./python.js` the Python type names, under any other module the types whose
   * enum lives there.
   */
  lemma FinalImportsConsistent(methods: seq<MethodDef>, typeToModule: map<string, string>)
    ensures ImportsConsistent(FinalImports(methods, typeToModule), typeToModule)
  {
    var parts := RegisteredParts(methods, typeToModule.Keys);
    FileAllConsistent(map[], parts, typeToModule);
    WithPythonConsistent(FileAll(map[], parts, typeToModule), PythonPartsOf(parts), typeToModule);
  }

  lemma WithPythonConsistent(others: map<string, set<string>>, python: set<string>, typeToModule: map<string, string>)
    requires Consistent(others, typeToModule)
    requires python <= PythonTsTypes
    ensures ImportsConsistent(WithPython(others, python), typeToModule)
  {
  }

  /** `parseBuiltins(builtins)` after `parseAST`, on the parsed enums and methods. */
  method ParseBuiltins(enums: seq<EnumDef>, methods: seq<MethodDef>) returns (files: seq<File>)
    ensures files == BuiltinFiles(enums, methods)
  {
    var typeToModule := CollectTypeToModule(enums);
    files := CollectEnumFiles(enums);
    if |methods| > 0 {
      var methodsFile := CollectMethodsFile(methods, typeToModule);
      files := files + [methodsFile];
    }
  }

  /** The first loop of `parseBuiltins`: the base type of each enum to its module. */
  method CollectTypeToModule(enums: seq<EnumDef>) returns (typeToModule: map<string, string>)
    ensures typeToModule == TypeToModule(enums)
  {
    typeToModule := map[];
    for i := 0 to |enums|
      invariant typeToModule == TypeToModule(enums[..i])
    {
      assert enums[..i + 1][..i] == enums[..i];
      var e := enums[i];
      if |e.items| > 0 && e.items[0].itemType != "" {
        typeToModule := typeToModule[e.items[0].itemType := ModulePath(e.name)];
      }
    }
    assert enums[..|enums|] == enums;
  }

  /** The second loop of `parseBuiltins`: a file per enum, skipping the enums with no items. */
  method CollectEnumFiles(enums: seq<EnumDef>) returns (files: seq<File>)
    ensures files == EnumFiles(enums)
  {
    files := [];
    for i := 0 to |enums|
      invariant files + EnumFiles(enums[i..]) == EnumFiles(enums)
    {
      if |enums[i].items| > 0 {
        EnumFilesAt(enums, i);
        AssocFiles(files, [EnumFile(enums[i])], EnumFiles(enums[i + 1..]));
        files := files + [EnumFile(enums[i])];
      } else {
        EnumFilesSkip(enums, i);
      }
    }
  }

  lemma EnumFilesAt(enums: seq<EnumDef>, i: nat)
    requires i < |enums| && |enums[i].items| > 0
    ensures EnumFiles(enums[i..]) == [EnumFile(enums[i])] + EnumFiles(enums[i + 1..])
  {
    assert enums[i..][1..] == enums[i + 1..];
  }

  lemma EnumFilesSkip(enums: seq<EnumDef>, i: nat)
    requires i < |enums| && |enums[i].items| == 0
    ensures EnumFiles(enums[i..]) == EnumFiles(enums[i + 1..])
  {
    var rest := enums[i..];
    assert rest[0] == enums[i] && rest[1..] == enums[i + 1..];
    var none: seq<File> := [];
    assert EnumFiles(rest) == none + EnumFiles(rest[1..]);
    assert none + EnumFiles(rest[1..]) == EnumFiles(rest[1..]);
  }

  lemma AssocFiles(a: seq<File>, b: seq<File>, c: seq<File>)
    ensures a + (b + c) == a + b + c
  {
  }

  /** The assembly of `methods.ts` after the third loop of `parseBuiltins`. */
  method CollectMethodsFile(methods: seq<MethodDef>, typeToModule: map<string, string>) returns (file: File)
    requires |methods| > 0
    ensures file == MethodsFile(methods, typeToModule)
  {
    var table := new ImportTable();
    var declarations := RegisterMethods(table, methods, typeToModule);
    var imports := table.others;
    if table.python != {} {
      imports := imports["./python.js" := table.python];
    }
    var importBlock := Join(ImportLines(imports), "\n");
    var content := Join(NonEmpty([importBlock, Join(declarations, "\n\n")]), "\n\n");
    file := File("methods.ts", content);
  }

  /** The third loop of `parseBuiltins`: the imports each method needs, and its declaration. */
  method RegisterMethods(table: ImportTable, methods: seq<MethodDef>, typeToModule: map<string, string>)
    returns (declarations: seq<string>)
    requires table.python == {} && table.others == map[]
    modifies table
    ensures table.python == PythonPartsOf(RegisteredParts(methods, typeToModule.Keys))
    ensures table.others == FileAll(map[], RegisteredParts(methods, typeToModule.Keys), typeToModule)
    ensures declarations == MethodDeclarations(methods, typeToModule.Keys)
  {
    var known := typeToModule.Keys;
    declarations := [];
    for i := 0 to |methods|
      invariant table.python == PythonPartsOf(RegisteredParts(methods[..i], known))
      invariant table.others == FileAll(map[], RegisteredParts(methods[..i], known), typeToModule)
      invariant declarations == MethodDeclarations(methods[..i], known)
    {
      var m := methods[i];
      RegisteredStep(methods, i, known, typeToModule);
      RegisterMethod(table, m, known, typeToModule);
      DeclarationsStep(methods, i, known);
      declarations := declarations + [MethodDeclaration(m, known)];
    }
    assert methods[..|methods|] == methods;
  }

  /** The registrations for one method: each parameter type, then the return type. */
  method RegisterMethod(table: ImportTable, m: MethodDef, known: set<string>, typeToModule: map<string, string>)
    modifies table
    ensures table.python == old(table.python) + PythonPartsOf(PartsOfAll(MethodTypes(m, known)))
    ensures table.others == FileAll(old(table.others), PartsOfAll(MethodTypes(m, known)), typeToModule)
  {
    RegisterParams(table, m.params, known, typeToModule);
    var returnType := MapPythonType(m.returnType, known);
    RegisterStep(old(table.others), ParamTypes(m.params, known), returnType, typeToModule);
    table.Register(returnType, typeToModule);
  }

  /** The registrations for the parameters, in order. */
  method RegisterParams(table: ImportTable, ps: seq<MethodParam>, known: set<string>, typeToModule: map<string, string>)
    modifies table
    ensures table.python == old(table.python) + PythonPartsOf(PartsOfAll(ParamTypes(ps, known)))
    ensures table.others == FileAll(old(table.others), PartsOfAll(ParamTypes(ps, known)), typeToModule)
  {
    for j := 0 to |ps|
      invariant table.python == old(table.python) + PythonPartsOf(PartsOfAll(ParamTypes(ps[..j], known)))
      invariant table.others == FileAll(old(table.others), PartsOfAll(ParamTypes(ps[..j], known)), typeToModule)
    {
      var tsType := MapPythonType(ps[j].paramType, known);
      ParamTypesStep(ps, j, known);
      RegisterStep(old(table.others), ParamTypes(ps[..j], known), tsType, typeToModule);
      table.Register(tsType, typeToModule);
    }
    assert ps[..|ps|] == ps;
  }

  /** The parts registered for one more method follow those of the earlier ones. */
  lemma RegisteredStep(methods: seq<MethodDef>, i: nat, known: set<string>, typeToModule: map<string, string>)
    requires i < |methods|
    ensures PythonPartsOf(RegisteredParts(methods[..i + 1], known))
      == PythonPartsOf(RegisteredParts(methods[..i], known)) + PythonPartsOf(PartsOfAll(MethodTypes(methods[i], known)))
    ensures FileAll(map[], RegisteredParts(methods[..i + 1], known), typeToModule)
      == FileAll(FileAll(map[], RegisteredParts(methods[..i], known), typeToModule), PartsOfAll(MethodTypes(methods[i], known)), typeToModule)
  {
    assert methods[..i + 1][..i] == methods[..i];
    var before, types := RegisteredParts(methods[..i], known), PartsOfAll(MethodTypes(methods[i], known));
    PythonPartsAppend(before, types);
    FileAllAppend(map[], before, types, typeToModule);
  }

  lemma ParamTypesStep(ps: seq<MethodParam>, j: nat, known: set<string>)
    requires j < |ps|
    ensures ParamTypes(ps[..j + 1], known) == ParamTypes(ps[..j], known) + [MapPythonType(ps[j].paramType, known)]
  {
    assert ps[..j + 1][..j] == ps[..j];
  }

  lemma DeclarationsStep(methods: seq<MethodDef>, i: nat, known: set<string>)
    requires i < |methods|
    ensures MethodDeclarations(methods[..i + 1], known) == MethodDeclarations(methods[..i], known) + [MethodDeclaration(methods[i], known)]
  {
    assert methods[..i + 1][..i] == methods[..i];
  }

  /** Registering one more type files its parts after the earlier ones. */
  lemma RegisterStep(m: map<string, set<string>>, types: seq<string>, tsType: string, typeToModule: map<string, string>)
    ensures PythonPartsOf(PartsOfAll(types)) + PythonPartsOf(Parts(tsType)) == PythonPartsOf(PartsOfAll(types + [tsType]))
    ensures FileAll(FileAll(m, PartsOfAll(types), typeToModule), Parts(tsType), typeToModule)
      == FileAll(m, PartsOfAll(types + [tsType]), typeToModule)
  {
    var ts := types + [tsType];
    assert ts[..|ts| - 1] == types;
    PythonPartsAppend(PartsOfAll(types), Parts(tsType));
    FileAllAppend(m, PartsOfAll(types), Parts(tsType), typeToModule);
  }

  lemma PythonPartsAppend(p: seq<string>, q: seq<string>)
    ensures PythonPartsOf(p + q) == PythonPartsOf(p) + PythonPartsOf(q)
  {
    assert forall x :: x in p + q <==> x in p || x in q;
  }
}
