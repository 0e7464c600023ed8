/**
 * A parameter's default from the parser to the printer (src/parser/ast.ts and
 * src/parser/index.ts): the `constant` parser gives `null`, a boolean, a number
 * or a string; `mapDefault` only rewrites strings; the printer keeps truthy
 * defaults only.
 */
module Defaults {
  import opened Wrappers
  import opened Tokenizer
  import opened Merging
  import TokenParsers
  import opened BuiltinNames
  import opened TypeScript
  import opened Builtins

  /** A parsed default as a constant; values the `constant` parser never gives have none. */
  function ConstantOfValue(v: Value): (r: Option<Constant>)
    ensures r.Some? <==> v.Null? || v.Bool? || (v.Num? && v.n >= 0) || v.Str?
  {
    match v
    case Null => Some(NullConst)
    case Bool(b) => Some(BoolConst(b))
    case Num(n) => if n >= 0 then Some(NumConst(n)) else None
    case Str(s) => Some(StrConst(s))
    case _ => None
  }

  /** The default of a parameter written `= t`. */
  function DefaultOf(t: Token): Option<Constant>
  {
    match TokenParsers.ConstantOf(t)
    case None => None
    case Some(v) => ConstantOfValue(v)
  }

  /**
   * Every token `constant` accepts gives a constant, and the names `None`, `True`
   * and `False` give `null` and booleans, never the strings `mapDefault` tests for.
   */
  lemma ConstantsAreConstants(t: Token)
    requires TokenParsers.ConstantOf(t).Some?
    ensures DefaultOf(t).Some?
    ensures t.kind == NAME ==> DefaultOf(t).value.NullConst? || DefaultOf(t).value.BoolConst?
    ensures t.kind == STRING ==> DefaultOf(t) == Some(StrConst(t.text))
  {
  }

  /** So `mapDefault` leaves every default written as a name alone. */
  lemma NameDefaultsPassThrough(t: Token)
    requires t.kind == NAME && TokenParsers.ConstantOf(t).Some?
    ensures MapDefault(DefaultOf(t)) == DefaultOf(t)
  {
    ConstantsAreConstants(t);
  }

  /**
   * `x = None` and `x = False` reach the printer as no default at all: the parameter
   * prints as a plain `x` and a required `x: type`.
   */
  lemma FalsyNamesDropped(t: Token, p: MethodParam, known: set<string>)
    requires t.kind == NAME && t.text in {"None", "False"}
    requires p.default == DefaultOf(t)
    ensures var q := MethodParams([p], known)[0];
      Destructured(q) == p.name && Typed(q) == p.name + ": " + MapPythonType(p.paramType, known)
  {
    FalsyDefaultIsDropped(p, known);
  }

  /** `x = True` prints as `x = true`, spelled by the interpolation of the boolean. */
  lemma TrueNamePrinted(t: Token, p: MethodParam, known: set<string>)
    requires t == Token(NAME, "True") && p.default == DefaultOf(t)
    ensures Destructured(MethodParams([p], known)[0]) == p.name + " = true"
  {
    TruthyDefaultIsPrinted(p, known);
  }

  /** The string literal `"None"` is what `mapDefault` rewrites: it prints as `null`. */
  lemma NoneStringPrinted(t: Token, p: MethodParam, known: set<string>)
    requires t == Token(STRING, "None") && p.default == DefaultOf(t)
    ensures Destructured(MethodParams([p], known)[0]) == p.name + " = null"
  {
    TruthyDefaultIsPrinted(p, known);
  }
}
