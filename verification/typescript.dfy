/**
 * The TypeScript printer: string templates for imports, doc comments, declarations,
 * literals, types, calls and returns. Layout follows one rule throughout: a construct
 * stays on one line unless something in it carries a comment or a measured length
 * exceeds 80 columns.
 */
module TypeScript {
  import opened Wrappers
  import opened Strings
  import opened PrintUtil

  /** The column limit of the printer. */
  const Width := 80

  /** JavaScript truthiness of an optional string: present and not empty. */
  predicate Truthy(s: Option<string>)
  {
    s.Some? && |s.value| > 0
  }

  /** A string literal: the text between double quotes, not escaped. */
  function Quote(s: string): string
  {
    "\"" + s + "\""
  }

  // ---- Import ----

  /** `Import({ type, names, module })`: `import [type ]{ a, b } from "source";` */
  function Import(isType: bool, names: seq<string>, source: string): (r: string)
    ensures |r| >= 12 && r[..7] == "import " && r[|r| - 1] == ';'
    ensures isType <==> r[7..12] == "type "
  {
    var rest := Join(names, ", ") + " } from " + Quote(source) + ";";
    var r := "import " + (if isType then "type " else "") + "{ " + rest;
    assert r[7] == if isType then 't' else '{';
    assert r[..7] == "import ";
    r
  }

  /** A type import is the plain import with `type ` after `import `. */
  lemma ImportTypeModifier(names: seq<string>, source: string)
    ensures Import(true, names, source) == "import type " + Import(false, names, source)[7..]
    ensures Import(false, names, source)[..7] == "import "
  {
  }

  /** An import is one line ending in the quoted module and `;`. */
  lemma ImportOneLine(isType: bool, names: seq<string>, source: string)
    requires '\n' !in source && forall i :: 0 <= i < |names| ==> '\n' !in names[i]
    ensures var r := Import(isType, names, source);
      '\n' !in r && r[|r| - |source| - 3..] == Quote(source) + ";"
  {
    NoNewlineInJoin(names, ", ");
  }

  lemma NoNewlineInJoin(parts: seq<string>, sep: string)
    requires '\n' !in sep && forall i :: 0 <= i < |parts| ==> '\n' !in parts[i]
    ensures '\n' !in Join(parts, sep)
  {
    if |parts| > 1 {
      NoNewlineInJoin(parts[1..], sep);
    }
  }

  /** The names after the first, each with the space `, ` puts in front of it. */
  function SpaceLed(names: seq<string>): (r: seq<string>)
    ensures |r| == |names| && forall i :: 0 <= i < |r| ==> r[i] == " " + names[i]
  {
    if |names| == 0 then [] else [" " + names[0]] + SpaceLed(names[1..])
  }

  /** Joining with `, ` is joining with `,` once every name but the first is led by a space. */
  lemma {:induction false} JoinCommaSpace(names: seq<string>)
    requires |names| >= 1
    ensures Join(names, ", ") == Join([names[0]] + SpaceLed(names[1..]), ",")
  {
    if |names| > 1 {
      var rest := names[1..];
      JoinCommaSpace(rest);
      assert rest[1..] == names[2..];
      var tail := SpaceLed(rest[1..]);
      assert SpaceLed(rest) == [" " + rest[0]] + tail;
      assert [names[0]] + SpaceLed(rest) == [names[0]] + ([" " + rest[0]] + tail);
      assert ([names[0]] + ([" " + rest[0]] + tail))[1..] == [" " + rest[0]] + tail;
      if |tail| == 0 {
        assert Join([" " + rest[0]] + tail, ",") == " " + rest[0];
        assert Join([rest[0]] + tail, ",") == rest[0];
      } else {
        assert ([" " + rest[0]] + tail)[1..] == tail;
        assert ([rest[0]] + tail)[1..] == tail;
        assert Join([" " + rest[0]] + tail, ",") == " " + rest[0] + "," + Join(tail, ",");
        assert Join([rest[0]] + tail, ",") == rest[0] + "," + Join(tail, ",");
      }
      assert Join([" " + rest[0]] + tail, ",") == " " + Join([rest[0]] + tail, ",");
    }
  }

  /** Names without a comma, joined by `, `, split back at `,` into the first name and each later one after its space. */
  lemma JoinCommaSplit(names: seq<string>)
    requires |names| >= 1 && forall i :: 0 <= i < |names| ==> ',' !in names[i]
    ensures Split(Join(names, ", "), ',') == [names[0]] + SpaceLed(names[1..])
  {
    var parts := [names[0]] + SpaceLed(names[1..]);
    JoinCommaSpace(names);
    forall i | 0 <= i < |parts|
      ensures ',' !in parts[i]
    {
      if i > 0 {
        assert parts[i] == " " + names[i];
      }
    }
    SplitJoin(parts, ',');
  }

  /**
   * The names come back out of an import: between `{ ` and ` }` stand the names
   * joined by `, `, and when no name holds a comma, splitting that at `,` gives the
   * first name and each later one after its space.
   */
  lemma ImportNames(isType: bool, names: seq<string>, source: string)
    requires |names| >= 1 && forall i :: 0 <= i < |names| ==> ',' !in names[i]
    ensures var r := Import(isType, names, source);
      var open := if isType then 14 else 9;
      var joined := Join(names, ", ");
      && |r| == open + |joined| + |source| + 11
      && r[..open] == (if isType then "import type { " else "import { ")
      && r[open..open + |joined|] == joined
      && r[open + |joined|..] == " } from " + Quote(source) + ";"
      && Split(r[open..open + |joined|], ',') == [names[0]] + SpaceLed(names[1..])
  {
    var joined := Join(names, ", ");
    var head := if isType then "import type { " else "import { ";
    var tail := " } from " + Quote(source) + ";";
    assert "import " + (if isType then "type " else "") + "{ " == head;
    RegroupTail(head, joined, " } from ", Quote(source), ";");
    ThreePieces(head, joined, tail);
    JoinCommaSplit(names);
  }

  // ---- JSDoc ----

  /** `JSDoc(comment, width)`: one `/** text */` line, or a block with ` * ` in front of each wrapped line. */
  function JSDoc(comment: string, width: int): (r: string)
    ensures |r| >= 6 && r[..3] == "/**" && r[|r| - 2..] == "*/"
  {
    var lines := Split(Join(WrapLines(comment, width), "\n"), '\n');
    var inner := if |lines| == 1 then " " + lines[0] + " " else "\n" + Join(Prefixed(lines, " * "), "\n") + "\n ";
    var r := "/**" + inner + "*/";
    assert r[..3] == "/**" && r[|r| - 2..] == "*/";
    r
  }

  /**
   * A comment that wraps to at most one line gives a single `/** … */` line; a longer one
   * gives `/**`, one ` * ` line per wrapped line, and ` */`.
   */
  lemma JSDocLayout(comment: string, width: int)
    ensures var lines := WrapLines(comment, width);
      && (|lines| == 0 ==> JSDoc(comment, width) == "/**  */")
      && (|lines| == 1 ==> JSDoc(comment, width) == "/** " + lines[0] + " */" && '\n' !in JSDoc(comment, width))
      && (|lines| > 1 ==> Split(JSDoc(comment, width), '\n') == ["/**"] + Prefixed(lines, " * ") + [" */"])
  {
    var lines := WrapLines(comment, width);
    WrapLinesNoNewline(comment, width);
    if |lines| == 0 {
      assert Split("", '\n') == [""];
    } else {
      SplitJoin(lines, '\n');
      if |lines| > 1 {
        var body := Prefixed(lines, " * ");
        forall i | 0 <= i < |body| ensures '\n' !in body[i] {
          assert body[i] == " * " + lines[i];
        }
        DocBlockLines(body);
        DocGlue(Join(body, "\n"));
      }
    }
  }

  /** The lines of a block comment body between `/**` and ` */`. */
  lemma DocBlockLines(body: seq<string>)
    requires |body| > 0 && forall i :: 0 <= i < |body| ==> '\n' !in body[i]
    ensures Split("/**\n" + Join(body, "\n") + "\n */", '\n') == ["/**"] + body + [" */"]
  {
    GlueDelimiters(Join(body, "\n"));
    LinesAround("/**", body, " */");
  }

  /** The block form as `JSDoc` assembles it: the delimiters around the body and its newlines. */
  lemma DocGlue(joined: string)
    ensures "/**" + ("\n" + joined + "\n ") + "*/" == "/**\n" + joined + "\n */"
  {
    assert "/**" + ("\n" + joined + "\n ") + "*/" == "/**" + "\n" + joined + "\n " + "*/";
    assert "/**" + "\n" == "/**\n";
    assert "\n " + "*/" == "\n */";
  }

  /** The block comment's delimiters written as one literal each or as a part and a newline. */
  lemma GlueDelimiters(joined: string)
    ensures "/**\n" + joined + "\n */" == "/**" + "\n" + joined + "\n" + " */"
  {
    assert "/**" + "\n" == "/**\n";
    assert "\n" + " */" == "\n */";
    Assoc("/**\n" + joined, "\n", " */");
  }

  // ---- VariableDeclaration ----

  datatype Kind = TypeAlias | Const

  function KindWord(k: Kind): string
  {
    match k
    case TypeAlias => "type"
    case Const => "const"
  }

  datatype VariableProps = VariableProps(
    comment: Option<string>, exported: bool, kind: Kind, name: string, value: string, cast: Option<string>)

  function ExportWord(exported: bool): string
  {
    if exported then "export " else ""
  }

  /** The doc comment line in front of a declaration, if its comment is truthy. */
  function DocPrefix(comment: Option<string>): string
  {
    if Truthy(comment) then JSDoc(comment.value, Width) + "\n" else ""
  }

  /** `VariableDeclaration`: `[/** doc */\n][export ]kind name = value[ as cast];` */
  function VariableDeclaration(p: VariableProps): string
  {
    DocPrefix(p.comment) + VariableStatement(p)
  }

  /** The declaration line itself: `[export ]kind name = value[ as cast];` */
  function VariableStatement(p: VariableProps): string
  {
    ExportWord(p.exported) + KindWord(p.kind) + " " + p.name + " = " + p.value
      + (if Truthy(p.cast) then " as " + p.cast.value else "") + ";"
  }

  /** A documented declaration is its doc comment, a newline, and the undocumented declaration. */
  lemma VariableDocumented(p: VariableProps)
    requires Truthy(p.comment)
    ensures VariableDeclaration(p) == JSDoc(p.comment.value, Width) + "\n" + VariableDeclaration(p.(comment := None))
  {
  }

  /** An undocumented declaration is one line, starting with `export ` iff exported and ending in `;`. */
  lemma VariableOneLine(p: VariableProps)
    requires !Truthy(p.comment)
    requires '\n' !in p.name && '\n' !in p.value && (p.cast.Some? ==> '\n' !in p.cast.value)
    ensures var r := VariableDeclaration(p);
      '\n' !in r && r[|r| - 1] == ';' && (p.exported <==> |r| >= 7 && r[..7] == "export ")
  {
    var r := VariableDeclaration(p);
    if !p.exported {
      assert r[0] == KindWord(p.kind)[0];
    }
  }

  /**
   * What an undocumented declaration binds: after the optional `export ` and the
   * keyword stands `name = value`, followed only by the optional cast and `;`.
   */
  lemma VariableBinds(p: VariableProps)
    requires !Truthy(p.comment)
    ensures var r := VariableDeclaration(p);
      var at := |ExportWord(p.exported) + KindWord(p.kind) + " "|;
      var bound := p.name + " = " + p.value;
      var cast := if Truthy(p.cast) then " as " + p.cast.value else "";
      && |r| == at + |bound| + |cast| + 1
      && r[at..at + |bound|] == bound
      && r[at + |bound|..] == cast + ";"
      && (p.exported ==> r[..at] == "export " + KindWord(p.kind) + " ")
  {
    var head := ExportWord(p.exported) + KindWord(p.kind) + " ";
    var bound := p.name + " = " + p.value;
    var cast := if Truthy(p.cast) then " as " + p.cast.value else "";
    assert VariableDeclaration(p) == VariableStatement(p);
    Regroup(head, p.name, " = ", p.value, cast, ";");
    ThreePieces(head, bound, cast + ";");
  }

  /** Regrouping a string and a four-piece tail into three pieces. */
  lemma RegroupTail(h: string, a: string, b: string, c: string, d: string)
    ensures h + (a + b + c + d) == h + a + (b + c + d)
  {
  }

  /** Regrouping six concatenated strings into three. */
  lemma Regroup(h: string, n: string, e: string, v: string, c: string, s: string)
    ensures h + n + e + v + c + s == h + (n + e + v) + (c + s)
  {
  }

  /** Where each of three concatenated strings sits in the whole. */
  lemma ThreePieces(head: string, mid: string, tail: string)
    ensures var r := head + mid + tail;
      && r[..|head|] == head
      && r[|head|..|head| + |mid|] == mid
      && r[|head| + |mid|..] == tail
  {
  }

  // ---- FunctionDeclaration ----

  datatype Param = Param(comment: Option<string>, name: string, paramType: string, default: Option<string>)

  /** `namedParams`: `true` destructures the parameters, a non-empty string names the bound object. */
  datatype NamedParams = Flag(on: bool) | Binding(binding: string)

  predicate IsNamed(np: NamedParams)
  {
    match np
    case Flag(on) => on
    case Binding(b) => |b| > 0
  }

  datatype FunctionProps = FunctionProps(
    comment: Option<string>, exported: bool, name: string, generics: seq<string>,
    params: seq<Param>, namedParams: NamedParams, returnType: Option<string>, body: string)

  function GenericsPart(generics: seq<string>): string
  {
    if |generics| > 0 then "<" + Join(generics, ", ") + ">" else ""
  }

  /** `name = default` or `name`, as destructured. */
  function Destructured(p: Param): string
  {
    if Truthy(p.default) then p.name + " = " + p.default.value else p.name
  }

  /** `name?: type` or `name: type`, as a member of the parameter object type. */
  function Typed(p: Param): string
  {
    p.name + (if Truthy(p.default) then "?" else "") + ": " + p.paramType
  }

  /** `name = default` or `name: type`, as a positional parameter. */
  function Positional(p: Param): string
  {
    if Truthy(p.default) then p.name + " = " + p.default.value else p.name + ": " + p.paramType
  }

  function AllDestructured(ps: seq<Param>): (r: seq<string>)
    ensures |r| == |ps| && forall i :: 0 <= i < |ps| ==> r[i] == Destructured(ps[i])
  {
    if |ps| == 0 then [] else [Destructured(ps[0])] + AllDestructured(ps[1..])
  }

  function AllTyped(ps: seq<Param>): (r: seq<string>)
    ensures |r| == |ps| && forall i :: 0 <= i < |ps| ==> r[i] == Typed(ps[i])
  {
    if |ps| == 0 then [] else [Typed(ps[0])] + AllTyped(ps[1..])
  }

  function AllPositional(ps: seq<Param>): (r: seq<string>)
    ensures |r| == |ps| && forall i :: 0 <= i < |ps| ==> r[i] == Positional(ps[i])
  {
    if |ps| == 0 then [] else [Positional(ps[0])] + AllPositional(ps[1..])
  }

  predicate AnyCommented(ps: seq<Param>)
  {
    exists i :: 0 <= i < |ps| && Truthy(ps[i].comment)
  }

  /** `renderParamsInline`: the parameters on one line. */
  function ParamsInline(ps: seq<Param>, np: NamedParams): string
  {
    if IsNamed(np) then "{ " + Join(AllDestructured(ps), ", ") + " }: { " + Join(AllTyped(ps), "; ") + " }"
    else Join(AllPositional(ps), ", ")
  }

  /** The header up to and including `(`. */
  function Opening(f: FunctionProps): string
  {
    ExportWord(f.exported) + "function " + f.name + GenericsPart(f.generics) + "("
  }

  /** The header from `)` on. */
  function Closing(f: FunctionProps): string
  {
    ")" + (if Truthy(f.returnType) then ": " + f.returnType.value else "") + " {"
  }

  /** `previewHeader`: the header as it would be on one line. */
  function PreviewHeader(f: FunctionProps): string
  {
    Opening(f) + ParamsInline(f.params, f.namedParams) + Closing(f)
  }

  /** `multiLine`: some parameter has a comment, or the one-line header is wider than 80. */
  predicate MultiLine(f: FunctionProps)
  {
    AnyCommented(f.params) || |PreviewHeader(f)| > Width
  }

  /** One parameter's lines in the multi-line form: its indented doc comment, if any, then `line`. */
  function Documented(p: Param, line: string): string
  {
    (if Truthy(p.comment) then Indent(JSDoc(p.comment.value, Width), 2) + "\n" else "") + Indent(line, 2)
  }

  function TypedEntries(ps: seq<Param>): (r: seq<string>)
    ensures |r| == |ps| && forall i :: 0 <= i < |ps| ==> r[i] == Documented(ps[i], Typed(ps[i]) + ";")
  {
    if |ps| == 0 then [] else [Documented(ps[0], Typed(ps[0]) + ";")] + TypedEntries(ps[1..])
  }

  function PositionalEntries(ps: seq<Param>): (r: seq<string>)
    ensures |r| == |ps| && forall i :: 0 <= i < |ps| ==> r[i] == Documented(ps[i], Positional(ps[i]) + ",")
  {
    if |ps| == 0 then [] else [Documented(ps[0], Positional(ps[0]) + ",")] + PositionalEntries(ps[1..])
  }

  function DestructuredLines(ps: seq<Param>): (r: seq<string>)
    ensures |r| == |ps| && forall i :: 0 <= i < |ps| ==> r[i] == Indent(Destructured(ps[i]) + ",", 2)
  {
    if |ps| == 0 then [] else [Indent(Destructured(ps[0]) + ",", 2)] + DestructuredLines(ps[1..])
  }

  /** `renderParams` when the header fits on one line. */
  function InlineParams(ps: seq<Param>, np: NamedParams): string
  {
    if IsNamed(np) then
      (if np.Binding? then np.binding else "{ " + Join(AllDestructured(ps), ", ") + " }")
        + ": { " + Join(AllTyped(ps), "; ") + " }"
    else Join(AllPositional(ps), ", ")
  }

  /** `renderParams` in the multi-line layout: one entry per line, doc comments above their entry. */
  function MultiLineParams(ps: seq<Param>, np: NamedParams): string
  {
    if IsNamed(np) then
      var destructuredBlock :=
        if np.Binding? then np.binding
        else "{\n" + Join(DestructuredLines(ps), "\n") + "\n}";
      destructuredBlock + ": {\n" + Join(TypedEntries(ps), "\n") + "\n}"
    else Join(PositionalEntries(ps), "\n")
  }

  /** `renderParams`: the parameter block, multi-line or not. */
  function ParamsBlock(f: FunctionProps): string
  {
    if MultiLine(f) then MultiLineParams(f.params, f.namedParams) else InlineParams(f.params, f.namedParams)
  }

  /** `header`: the parameter block inline, or indented on lines of its own. */
  function Header(f: FunctionProps): string
  {
    if MultiLine(f) then Opening(f) + "\n" + Indent(ParamsBlock(f), 2) + "\n" + Closing(f)
    else Opening(f) + ParamsBlock(f) + Closing(f)
  }

  /** `FunctionDeclaration`: doc comment, then the definition. */
  function FunctionDeclaration(f: FunctionProps): string
  {
    DocPrefix(f.comment) + Definition(f)
  }

  /** The header, the body indented by two, and `}`, each starting a line. */
  function Definition(f: FunctionProps): string
  {
    Header(f) + "\n" + Indent(f.body, 2) + "\n" + "}"
  }

  /**
   * The layout rule: a header kept on one line is the previewed header, so it fits in 80
   * columns, unless the parameters are bound to a name (then the name replaces the
   * destructuring that was measured).
   */
  lemma InlineHeaderFits(f: FunctionProps)
    requires !MultiLine(f)
    requires !(f.namedParams.Binding? && |f.namedParams.binding| > 0)
    ensures Header(f) == PreviewHeader(f) && |Header(f)| <= Width
  {
    assert InlineParams(f.params, f.namedParams) == ParamsInline(f.params, f.namedParams);
  }

  /**
   * A multi-line header is the opening, then each line of the parameter block indented
   * by two, then the closing, each on a line of its own.
   */
  lemma MultiLineHeader(f: FunctionProps)
    requires MultiLine(f)
    requires '\n' !in Opening(f) && '\n' !in Closing(f)
    ensures Split(Header(f), '\n') == [Opening(f)] + Prefixed(Split(ParamsBlock(f), '\n'), "  ") + [Closing(f)]
  {
    var block := ParamsBlock(f);
    IndentLines(block, 2);
    var lines := Prefixed(Split(block, '\n'), Spaces(2));
    forall i | 0 <= i < |lines| ensures '\n' !in lines[i] {
      assert lines[i] == Spaces(2) + Split(block, '\n')[i];
    }
    JoinSplit(Indent(block, 2), '\n');
    assert Indent(block, 2) == Join(lines, "\n");
    LinesAround(Opening(f), lines, Closing(f));
    assert Spaces(2) == "  ";
  }

  /** Positional parameters without comments print one `name: type,` (or `name = default,`) per line. */
  lemma PositionalBlockLines(f: FunctionProps)
    requires MultiLine(f) && !IsNamed(f.namedParams) && |f.params| > 0
    requires forall i :: 0 <= i < |f.params| ==> !Truthy(f.params[i].comment) && '\n' !in Positional(f.params[i])
    ensures Split(ParamsBlock(f), '\n') == CommaLines(AllPositional(f.params))
  {
    var ps := f.params;
    var entries := PositionalEntries(ps);
    assert ParamsBlock(f) == Join(entries, "\n");
    PositionalEntriesPlain(ps);
    CommaLinesNoNewline(AllPositional(ps));
    SplitJoin(entries, '\n');
  }

  lemma PositionalEntriesPlain(ps: seq<Param>)
    requires forall i :: 0 <= i < |ps| ==> !Truthy(ps[i].comment) && '\n' !in Positional(ps[i])
    ensures PositionalEntries(ps) == CommaLines(AllPositional(ps))
  {
    var entries := PositionalEntries(ps);
    forall i | 0 <= i < |ps| ensures entries[i] == CommaLines(AllPositional(ps))[i] {
      UndocumentedParam(ps[i], Positional(ps[i]));
    }
  }

  /** An undocumented entry's line in the multi-line layout: two spaces, the text, and a comma. */
  lemma UndocumentedParam(p: Param, text: string)
    requires !Truthy(p.comment) && '\n' !in text
    ensures Documented(p, text + ",") == "  " + text + ","
  {
    IndentComma(text);
  }

  lemma UndocumentedEntry(e: Entry, text: string)
    requires !EntryCommented(e) && '\n' !in text
    ensures EntryLines(e, text + ",") == "  " + text + ","
  {
    IndentComma(text);
  }

  lemma IndentComma(text: string)
    requires '\n' !in text
    ensures Indent(text + ",", 2) == "  " + text + ","
  {
    IndentTwo(text + ",");
    assert "  " + (text + ",") == "  " + text + ",";
  }

  lemma IndentTwo(line: string)
    requires '\n' !in line
    ensures Indent(line, 2) == "  " + line
  {
    IndentOneLine(line, 2);
    assert Spaces(2) == "  ";
  }

  /** A newline-free line indents to the spaces and the line. */
  lemma IndentOneLine(line: string, amount: nat)
    requires '\n' !in line
    ensures Indent(line, amount) == Spaces(amount) + line
  {
    SplitNoSeparator(line, '\n');
    assert Prefixed([line], Spaces(amount)) == [Spaces(amount) + line];
  }

  /** A documented function is its doc comment, a newline, and the undocumented function. */
  lemma FunctionDocumented(f: FunctionProps)
    requires Truthy(f.comment)
    ensures FunctionDeclaration(f) == JSDoc(f.comment.value, Width) + "\n" + FunctionDeclaration(f.(comment := None))
  {
    var g := f.(comment := None);
    assert Opening(g) == Opening(f);
    assert Closing(g) == Closing(f);
    assert PreviewHeader(g) == PreviewHeader(f);
    assert MultiLine(g) == MultiLine(f);
    assert ParamsBlock(g) == ParamsBlock(f);
    assert Header(g) == Header(f);
    assert Definition(g) == Definition(f);
  }

  /** The function ends with the body's lines, each indented by two, and a line `}`. */
  lemma FunctionBodyLines(f: FunctionProps)
    ensures var lines := Split(FunctionDeclaration(f), '\n');
      var body := Prefixed(Split(f.body, '\n'), "  ");
      |lines| >= |body| + 2 && lines[|lines| - |body| - 1..] == body + ["}"]
  {
    var body := Prefixed(Split(f.body, '\n'), "  ");
    DefinitionLines(f);
    var head := Split(Header(f), '\n');
    assert Split(Definition(f), '\n') == head + (body + ["}"]);
    if Truthy(f.comment) {
      SplitAround(JSDoc(f.comment.value, Width), Definition(f), '\n');
      var doc := Split(JSDoc(f.comment.value, Width), '\n');
      assert Split(FunctionDeclaration(f), '\n') == (doc + head) + (body + ["}"]);
      EndsWithLines(Split(FunctionDeclaration(f), '\n'), doc + head, body);
    } else {
      assert FunctionDeclaration(f) == Definition(f);
      EndsWithLines(Split(FunctionDeclaration(f), '\n'), head, body);
    }
  }

  /** Lines made of at least one line, then `body`, then `}`, end with `body` and `}`. */
  lemma EndsWithLines(lines: seq<string>, front: seq<string>, body: seq<string>)
    requires |front| >= 1 && lines == front + (body + ["}"])
    ensures |lines| >= |body| + 2 && lines[|lines| - |body| - 1..] == body + ["}"]
  {
    assert lines[|front|..] == body + ["}"];
  }

  /** The definition's lines: the header's, each body line indented by two, and `}`. */
  lemma DefinitionLines(f: FunctionProps)
    ensures Split(Definition(f), '\n') == Split(Header(f), '\n') + Prefixed(Split(f.body, '\n'), "  ") + ["}"]
  {
    var indented := Indent(f.body, 2);
    IndentLines(f.body, 2);
    assert Spaces(2) == "  ";
    SplitAround(Header(f) + "\n" + indented, "}", '\n');
    SplitAround(Header(f), indented, '\n');
    SplitNoSeparator("}", '\n');
  }

  // ---- Declaration ----

  /** The props of `Declaration`: those with `params` are a function's. */
  datatype DeclarationProps = VariableForm(declaration: VariableProps) | FunctionForm(decl: FunctionProps)

  function Declaration(props: DeclarationProps): string
  {
    match props
    case VariableForm(v) => VariableDeclaration(v)
    case FunctionForm(f) => FunctionDeclaration(f)
  }

  /** The form is visible in the output: a function ends in `}`, a variable in `;`. */
  lemma DeclarationForm(props: DeclarationProps)
    ensures var r := Declaration(props);
      |r| > 0 && (props.FunctionForm? <==> r[|r| - 1] == '}') && (props.VariableForm? <==> r[|r| - 1] == ';')
  {
  }

  // ---- ArrayLiteral / ObjectLiteral ----

  /** An entry: plain text, or a value with an optional doc comment. */
  datatype Entry = Plain(text: string) | Described(comment: Option<string>, value: string)

  function EntryValue(e: Entry): string
  {
    match e
    case Plain(t) => t
    case Described(_, v) => v
  }

  predicate EntryCommented(e: Entry)
  {
    e.Described? && Truthy(e.comment)
  }

  /** One entry in the multi-line form: its indented doc comment, if any, then `line`. */
  function EntryLines(e: Entry, line: string): string
  {
    (if EntryCommented(e) then Indent(JSDoc(e.comment.value, Width), 2) + "\n" else "") + Indent(line, 2)
  }

  function Values(entries: seq<Entry>): (r: seq<string>)
    ensures |r| == |entries| && forall i :: 0 <= i < |entries| ==> r[i] == EntryValue(entries[i])
  {
    if |entries| == 0 then [] else [EntryValue(entries[0])] + Values(entries[1..])
  }

  /** The `reduce` of `ArrayLiteral`: one more than each value's length, summed. */
  function ArrayEntriesLength(entries: seq<Entry>): nat
  {
    if |entries| == 0 then 0 else 1 + |EntryValue(entries[0])| + ArrayEntriesLength(entries[1..])
  }

  predicate ArrayMultiLine(entries: seq<Entry>)
  {
    (exists i :: 0 <= i < |entries| && EntryCommented(entries[i])) || ArrayEntriesLength(entries) > Width
  }

  function ArrayLines(entries: seq<Entry>): (r: seq<string>)
    ensures |r| == |entries|
    ensures forall i :: 0 <= i < |entries| ==> r[i] == EntryLines(entries[i], EntryValue(entries[i]) + ",")
  {
    if |entries| == 0 then []
    else [EntryLines(entries[0], EntryValue(entries[0]) + ",")] + ArrayLines(entries[1..])
  }

  /** `Literal.Array`: `[a, b]`, or one indented `a,` per line between `[` and `]`. */
  function ArrayLiteral(entries: seq<Entry>): string
  {
    if ArrayMultiLine(entries) then ArrayBlock(entries) else ArrayInline(entries)
  }

  function ArrayInline(entries: seq<Entry>): string
  {
    "[" + Join(Values(entries), ", ") + "]"
  }

  function ArrayBlock(entries: seq<Entry>): string
  {
    "[" + "\n" + Join(ArrayLines(entries), "\n") + "\n" + "]"
  }

  lemma {:induction false} ArrayEntriesLengthSum(entries: seq<Entry>)
    ensures ArrayEntriesLength(entries) == |entries| + TotalLength(Values(entries))
  {
    if |entries| > 0 {
      ArrayEntriesLengthSum(entries[1..]);
      assert Values(entries)[1..] == Values(entries[1..]);
    }
  }

  /**
   * The 80 rule measures the entries, not the printed text: an inline array literal is
   * as long as the measure plus one per entry (the `, ` separators and brackets).
   */
  lemma ArrayInlineLength(entries: seq<Entry>)
    requires !ArrayMultiLine(entries) && |entries| > 0
    ensures |ArrayLiteral(entries)| == ArrayEntriesLength(entries) + |entries|
    ensures |ArrayLiteral(entries)| <= Width + |entries|
  {
    ArrayEntriesLengthSum(entries);
    JoinLength(Values(entries), ", ");
  }

  /** A multi-line array literal without comments: `[`, one `  value,` line per entry, `]`. */
  lemma ArrayMultiLineLines(entries: seq<Entry>)
    requires ArrayMultiLine(entries) && |entries| > 0
    requires forall i :: 0 <= i < |entries| ==> !EntryCommented(entries[i]) && '\n' !in EntryValue(entries[i])
    ensures Split(ArrayLiteral(entries), '\n') == ["["] + CommaLines(Values(entries)) + ["]"]
  {
    var lines := ArrayLines(entries);
    ArrayLinesPlain(entries);
    CommaLinesNoNewline(Values(entries));
    LinesAround("[", lines, "]");
  }

  lemma ArrayLinesPlain(entries: seq<Entry>)
    requires forall i :: 0 <= i < |entries| ==> !EntryCommented(entries[i]) && '\n' !in EntryValue(entries[i])
    ensures ArrayLines(entries) == CommaLines(Values(entries))
  {
    var lines := ArrayLines(entries);
    forall i | 0 <= i < |entries| ensures lines[i] == CommaLines(Values(entries))[i] {
      UndocumentedEntry(entries[i], EntryValue(entries[i]));
    }
  }

  /** Each value indented by two and followed by a comma. */
  function CommaLines(values: seq<string>): (r: seq<string>)
    ensures |r| == |values| && forall i :: 0 <= i < |values| ==> r[i] == "  " + values[i] + ","
  {
    if |values| == 0 then [] else ["  " + values[0] + ","] + CommaLines(values[1..])
  }

  lemma CommaLinesNoNewline(values: seq<string>)
    requires forall i :: 0 <= i < |values| ==> '\n' !in values[i]
    ensures forall i :: 0 <= i < |values| ==> '\n' !in CommaLines(values)[i]
  {
  }

  /** `key: value` */
  function KeyValue(key: string, e: Entry): string
  {
    key + ": " + EntryValue(e)
  }

  function KeyValues(entries: seq<(string, Entry)>): (r: seq<string>)
    ensures |r| == |entries| && forall i :: 0 <= i < |entries| ==> r[i] == KeyValue(entries[i].0, entries[i].1)
  {
    if |entries| == 0 then [] else [KeyValue(entries[0].0, entries[0].1)] + KeyValues(entries[1..])
  }

  /** The `reduce` of `ObjectLiteral`: one more than each key's and value's length, summed. */
  function ObjectEntriesLength(entries: seq<(string, Entry)>): nat
  {
    if |entries| == 0 then 0
    else 1 + |entries[0].0| + |EntryValue(entries[0].1)| + ObjectEntriesLength(entries[1..])
  }

  predicate ObjectMultiLine(entries: seq<(string, Entry)>)
  {
    (exists i :: 0 <= i < |entries| && EntryCommented(entries[i].1)) || ObjectEntriesLength(entries) > Width
  }

  function ObjectLines(entries: seq<(string, Entry)>): (r: seq<string>)
    ensures |r| == |entries|
    ensures forall i :: 0 <= i < |entries| ==> r[i] == EntryLines(entries[i].1, KeyValue(entries[i].0, entries[i].1) + ",")
  {
    if |entries| == 0 then []
    else [EntryLines(entries[0].1, KeyValue(entries[0].0, entries[0].1) + ",")] + ObjectLines(entries[1..])
  }

  /** `Literal.Object`: `{ k: v, … }`, or one indented `k: v,` per line between `{` and `}`. */
  function ObjectLiteral(entries: seq<(string, Entry)>): string
  {
    if ObjectMultiLine(entries) then ObjectBlock(entries) else ObjectInline(entries)
  }

  function ObjectInline(entries: seq<(string, Entry)>): string
  {
    "{ " + Join(KeyValues(entries), ", ") + " }"
  }

  function ObjectBlock(entries: seq<(string, Entry)>): string
  {
    "{" + "\n" + Join(ObjectLines(entries), "\n") + "\n" + "}"
  }

  lemma {:induction false} ObjectEntriesLengthSum(entries: seq<(string, Entry)>)
    ensures ObjectEntriesLength(entries) + 2 * |entries| == TotalLength(KeyValues(entries)) + |entries|
  {
    if |entries| > 0 {
      ObjectEntriesLengthSum(entries[1..]);
      assert KeyValues(entries)[1..] == KeyValues(entries[1..]);
    }
  }

  /** An inline object literal is as long as the measure plus three per entry plus two. */
  lemma ObjectInlineLength(entries: seq<(string, Entry)>)
    requires !ObjectMultiLine(entries) && |entries| > 0
    ensures |ObjectLiteral(entries)| == ObjectEntriesLength(entries) + 3 * |entries| + 2
    ensures |ObjectLiteral(entries)| <= Width + 3 * |entries| + 2
  {
    ObjectEntriesLengthSum(entries);
    JoinLength(KeyValues(entries), ", ");
  }

  /** A multi-line object literal without comments: `{`, one `  key: value,` line per entry, `}`. */
  lemma ObjectMultiLineLines(entries: seq<(string, Entry)>)
    requires ObjectMultiLine(entries) && |entries| > 0
    requires forall i :: 0 <= i < |entries| ==>
      !EntryCommented(entries[i].1) && '\n' !in KeyValue(entries[i].0, entries[i].1)
    ensures Split(ObjectLiteral(entries), '\n') == ["{"] + CommaLines(KeyValues(entries)) + ["}"]
  {
    var lines := ObjectLines(entries);
    ObjectLinesPlain(entries);
    CommaLinesNoNewline(KeyValues(entries));
    LinesAround("{", lines, "}");
  }

  lemma ObjectLinesPlain(entries: seq<(string, Entry)>)
    requires forall i :: 0 <= i < |entries| ==>
      !EntryCommented(entries[i].1) && '\n' !in KeyValue(entries[i].0, entries[i].1)
    ensures ObjectLines(entries) == CommaLines(KeyValues(entries))
  {
    var lines := ObjectLines(entries);
    forall i | 0 <= i < |entries| ensures lines[i] == CommaLines(KeyValues(entries))[i] {
      UndocumentedEntry(entries[i].1, KeyValue(entries[i].0, entries[i].1));
    }
  }

  // ---- Literal ----

  /** The JavaScript values `Literal` is given; `Other` stands for a function, symbol or the like. */
  datatype JsValue =
    | JsNull
    | JsUndefined
    | JsString(s: string)
    | JsNumber(n: int)
    | JsBool(b: bool)
    | JsArray(items: seq<JsValue>)
    | JsObject(props: seq<(string, JsValue)>)
    | JsOther(typeName: string)

  /** `Literal(value)`, with the thrown error as `Err`. */
  function Literal(v: JsValue): Result<string, string>
    decreases v, 1
  {
    match v
    case JsNull => Ok("null")
    case JsArray(items) =>
      (match LiteralAll(items, v)
       case Ok(ls) => Ok(ArrayLiteral(PlainAll(ls)))
       case Err(e) => Err(e))
    case JsObject(props) =>
      (match LiteralProps(props, v)
       case Ok(ls) => Ok(ObjectLiteral(ls))
       case Err(e) => Err(e))
    case JsString(s) => Ok(Quote(s))
    case JsNumber(n) => Ok(IntToString(n))
    case JsBool(b) => Ok(if b then "true" else "false")
    case JsUndefined => Ok("undefined")
    case JsOther(t) => Err("Unsupported type: " + t)
  }

  function PlainAll(ls: seq<string>): (r: seq<Entry>)
    ensures |r| == |ls| && forall i :: 0 <= i < |ls| ==> r[i] == Plain(ls[i])
  {
    if |ls| == 0 then [] else [Plain(ls[0])] + PlainAll(ls[1..])
  }

  /** The literals of the items in order; the first unsupported one throws. */
  function LiteralAll(items: seq<JsValue>, ghost parent: JsValue): Result<seq<string>, string>
    requires forall i :: 0 <= i < |items| ==> items[i] < parent
    decreases parent, 0, |items|
  {
    if |items| == 0 then Ok([])
    else
      match Literal(items[0])
      case Err(e) => Err(e)
      case Ok(l) =>
        match LiteralAll(items[1..], parent)
        case Err(e) => Err(e)
        case Ok(ls) => Ok([l] + ls)
  }

  function LiteralProps(props: seq<(string, JsValue)>, ghost parent: JsValue): Result<seq<(string, Entry)>, string>
    requires forall i :: 0 <= i < |props| ==> props[i].1 < parent
    decreases parent, 0, |props|
  {
    if |props| == 0 then Ok([])
    else
      match Literal(props[0].1)
      case Err(e) => Err(e)
      case Ok(l) =>
        match LiteralProps(props[1..], parent)
        case Err(e) => Err(e)
        case Ok(ls) => Ok([(props[0].0, Plain(l))] + ls)
  }

  /** No value of an unsupported type anywhere inside. */
  predicate Supported(v: JsValue)
  {
    match v
    case JsOther(_) => false
    case JsArray(items) => forall i :: 0 <= i < |items| ==> Supported(items[i])
    case JsObject(props) => forall i :: 0 <= i < |props| ==> Supported(props[i].1)
    case _ => true
  }

  /** `Literal` throws exactly when an unsupported value occurs somewhere inside. */
  lemma {:induction false} LiteralTotalOnSupported(v: JsValue)
    ensures Literal(v).Ok? <==> Supported(v)
    decreases v, 1
  {
    match v
    case JsArray(items) => LiteralAllOk(items, v);
    case JsObject(props) => LiteralPropsOk(props, v);
    case _ =>
  }

  lemma {:induction false} LiteralAllOk(items: seq<JsValue>, parent: JsValue)
    requires forall i :: 0 <= i < |items| ==> items[i] < parent
    ensures LiteralAll(items, parent).Ok? <==> forall i :: 0 <= i < |items| ==> Supported(items[i])
    ensures LiteralAll(items, parent).Ok? ==> |LiteralAll(items, parent).value| == |items|
    decreases parent, 0, |items|
  {
    if |items| > 0 {
      LiteralTotalOnSupported(items[0]);
      LiteralAllOk(items[1..], parent);
      assert forall i :: 0 < i < |items| ==> items[i] == items[1..][i - 1];
    }
  }

  lemma {:induction false} LiteralPropsOk(props: seq<(string, JsValue)>, parent: JsValue)
    requires forall i :: 0 <= i < |props| ==> props[i].1 < parent
    ensures LiteralProps(props, parent).Ok? <==> forall i :: 0 <= i < |props| ==> Supported(props[i].1)
    decreases parent, 0, |props|
  {
    if |props| > 0 {
      LiteralTotalOnSupported(props[0].1);
      LiteralPropsOk(props[1..], parent);
      assert forall i :: 0 < i < |props| ==> props[i] == props[1..][i - 1];
    }
  }

  /** Strings are not escaped: one string holding `", "` prints as two strings would. */
  lemma LiteralDoesNotEscape()
    ensures Literal(JsString("a\", \"b")) == Ok(Quote("a") + ", " + Quote("b"))
  {
    assert Quote("a\", \"b") == Quote("a") + ", " + Quote("b");
  }

  // ---- Type, Call, Return ----

  /** `Type.Union`: the types joined by ` | `. */
  function Union(types: seq<string>): string
  {
    Join(types, " | ")
  }

  /** A union of two non-empty lists is the union of their unions. */
  lemma UnionAppend(a: seq<string>, b: seq<string>)
    requires |a| > 0 && |b| > 0
    ensures Union(a + b) == Union(a) + " | " + Union(b)
  {
    JoinAppend(a, b, " | ");
  }

  /** `Type.Generic`: `name<a, b>`. */
  function Generic(name: string, types: seq<string>): string
  {
    name + "<" + Join(types, ", ") + ">"
  }

  /** The inline form of a call: `name<generics>(a, b)`. */
  function CallInline(name: string, generics: seq<string>, params: seq<string>): string
  {
    name + GenericsPart(generics) + "(" + Join(params, ", ") + ")"
  }

  function IndentedCommaLines(params: seq<string>): (r: seq<string>)
    ensures |r| == |params| && forall i :: 0 <= i < |params| ==> r[i] == Indent(params[i] + ",", 2)
  {
    if |params| == 0 then [] else [Indent(params[0] + ",", 2)] + IndentedCommaLines(params[1..])
  }

  /** `Call`: inline when that fits in 80 columns, otherwise one indented `param,` per line. */
  function Call(name: string, generics: seq<string>, params: seq<string>): string
  {
    var inline := CallInline(name, generics, params);
    if |inline| <= Width then inline
    else name + GenericsPart(generics) + "(" + "\n" + Join(IndentedCommaLines(params), "\n") + "\n" + ")"
  }

  /** A generic call names its callee as the generic type does. */
  lemma CallGeneric(name: string, generics: seq<string>, params: seq<string>)
    requires |generics| > 0
    ensures CallInline(name, generics, params) == Generic(name, generics) + "(" + Join(params, ", ") + ")"
  {
  }

  /**
   * For a newline-free callee and parameters, a call is on one line exactly when its inline
   * form fits in 80 columns; otherwise its lines are the callee with `(`, one `  param,`
   * per parameter, and `)`.
   */
  lemma CallLayout(name: string, generics: seq<string>, params: seq<string>)
    requires '\n' !in name && forall i :: 0 <= i < |generics| ==> '\n' !in generics[i]
    requires |params| > 0 && forall i :: 0 <= i < |params| ==> '\n' !in params[i]
    ensures var inline := CallInline(name, generics, params);
      && ('\n' !in Call(name, generics, params) <==> |inline| <= Width)
      && (|inline| > Width ==>
           Split(Call(name, generics, params), '\n') == [name + GenericsPart(generics) + "("] + CommaLines(params) + [")"])
  {
    if |CallInline(name, generics, params)| <= Width {
      NoNewlineInJoin(params, ", ");
      NoNewlineInJoin(generics, ", ");
    } else {
      CallLines(name, generics, params);
    }
  }

  lemma CallLines(name: string, generics: seq<string>, params: seq<string>)
    requires '\n' !in name && forall i :: 0 <= i < |generics| ==> '\n' !in generics[i]
    requires |params| > 0 && forall i :: 0 <= i < |params| ==> '\n' !in params[i]
    requires |CallInline(name, generics, params)| > Width
    ensures var head := name + GenericsPart(generics) + "(";
      && Split(Call(name, generics, params), '\n') == [head] + CommaLines(params) + [")"]
      && Call(name, generics, params)[|head|] == '\n'
  {
    NoNewlineInJoin(generics, ", ");
    var lines := IndentedCommaLines(params);
    IndentedCommaLinesPlain(params);
    CommaLinesNoNewline(params);
    var head := name + GenericsPart(generics) + "(";
    LinesAround(head, lines, ")");
  }

  lemma IndentedCommaLinesPlain(params: seq<string>)
    requires forall i :: 0 <= i < |params| ==> '\n' !in params[i]
    ensures IndentedCommaLines(params) == CommaLines(params)
  {
    var lines := IndentedCommaLines(params);
    forall i | 0 <= i < |params| ensures lines[i] == CommaLines(params)[i] {
      IndentComma(params[i]);
    }
  }

  /** `Return(value)`: `return value;` */
  function Return(value: string): string
  {
    "return " + value + ";"
  }
}
