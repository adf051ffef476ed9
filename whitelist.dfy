/** The evaluator's two fixed tables: the operators it applies and the names
    it resolves. The name table is harvested from the public names of `math`,
    then of `cmath` (which overrides `math` on shared names), then a handful
    of explicit entries; the name lists are those of Python 3.11. */
module Whitelist {
  import opened PyValues
  import opened Syntax

  /** The functions of Python's `operator` module the operator table uses. */
  datatype Arith = Plus | Minus | Times | TrueDivide | Power | Negate | Modulo | FloorDivide

  /** Operator class to `operator` function. Classes not listed (bitwise,
      matrix, shift, `not`, `~`, unary `+`) are absent on purpose. */
  const AllowedOperators: map<Operator, Arith> := map[
    Add := Plus, Sub := Minus, Mult := Times, Div := TrueDivide,
    Pow := Power, USub := Negate, Mod := Modulo, FloorDiv := FloorDivide]

  const MathFunctions: set<string> := {
    "acos", "acosh", "asin", "asinh", "atan", "atan2", "atanh", "cbrt", "ceil",
    "comb", "copysign", "cos", "cosh", "degrees", "dist", "erf", "erfc", "exp",
    "exp2", "expm1", "fabs", "factorial", "floor", "fmod", "frexp", "fsum",
    "gamma", "gcd", "hypot", "isclose", "isfinite", "isinf", "isnan", "isqrt",
    "lcm", "ldexp", "lgamma", "log", "log10", "log1p", "log2", "modf",
    "nextafter", "perm", "pow", "prod", "radians", "remainder", "sin", "sinh",
    "sqrt", "tan", "tanh", "trunc", "ulp"}

  const Pi: Value := Float(Finite(3.141592653589793))
  const Euler: Value := Float(Finite(2.718281828459045))
  const Tau: Value := Float(Finite(6.283185307179586))

  const MathConstants: map<string, Value> := map[
    "e" := Euler, "inf" := Float(Infinity(false)), "nan" := Float(NaN),
    "pi" := Pi, "tau" := Tau]

  const CmathFunctions: set<string> := {
    "acos", "acosh", "asin", "asinh", "atan", "atanh", "cos", "cosh", "exp",
    "isclose", "isfinite", "isinf", "isnan", "log", "log10", "phase", "polar",
    "rect", "sin", "sinh", "sqrt", "tan", "tanh"}

  const CmathConstants: map<string, Value> := map[
    "e" := Euler, "inf" := Float(Infinity(false)), "nan" := Float(NaN),
    "pi" := Pi, "tau" := Tau,
    "infj" := Complex(Finite(0.0), Infinity(false)), "nanj" := Complex(Finite(0.0), NaN)]

  /** The entries written out by hand; they are applied last and so win. */
  const ExplicitNames: map<string, Value> := map[
    "abs" := Builtin("builtins.abs"), "round" := Builtin("builtins.round"),
    "max" := Builtin("builtins.max"), "min" := Builtin("builtins.min"),
    "sum" := Builtin("builtins.sum"), "pi" := Pi, "e" := Euler,
    "factorial" := Builtin("math.factorial"), "sqrt" := Builtin("math.sqrt"),
    "log" := Builtin("math.log"), "log10" := Builtin("math.log10")]

  /** The qualified name a module's function is known by, such as `cmath.sin`. */
  function Qualified(qualifier: string, name: string): string {
    qualifier + "." + name
  }

  /** The public names of one module: its functions and its constants. */
  function ModuleNames(qualifier: string, functions: set<string>, constants: map<string, Value>): map<string, Value> {
    (map n | n in functions :: Builtin(Qualified(qualifier, n))) + constants
  }

  /** A module's constants shadow its functions of the same name; each other
      function name resolves to the qualified function. */
  lemma ModuleNamesLookup(qualifier: string, functions: set<string>, constants: map<string, Value>, id: string)
    ensures var m := ModuleNames(qualifier, functions, constants);
      && (id in m <==> id in functions || id in constants)
      && (id in constants ==> m[id] == constants[id])
      && (id in functions && id !in constants ==> m[id] == Builtin(Qualified(qualifier, id)))
  {
  }

  /** `ALLOWED_NAMES`: later updates override earlier ones, as `dict.update` does. */
  const AllowedNames: map<string, Value> :=
    ModuleNames("math", MathFunctions, MathConstants)
    + ModuleNames("cmath", CmathFunctions, CmathConstants)
    + ExplicitNames

  /** The names whose calls the degree mode converts. */
  const TrigNames: seq<string> := ["sin", "cos", "tan", "asin", "acos", "atan"]

  /** Of the unary operator classes, only `USub` is in the operator table, so
      unary `+`, `~` and `not` have no entry. */
  lemma OnlyNegationIsUnary(op: Operator)
    requires op in AllowedOperators
    ensures op in {Invert, Not, UAdd, USub} ==> op == USub
    ensures op == USub <==> AllowedOperators[op] == Negate
  {
  }

  /** A name with an explicit entry resolves to it, whatever the modules hold. */
  lemma ExplicitEntryWins(id: string)
    requires id in ExplicitNames
    ensures id in AllowedNames && AllowedNames[id] == ExplicitNames[id]
  {
  }

  /** In `earlier + ModuleNames(q, fs, cs) + later`, a function name of the
      middle module that neither its constants nor `later` define resolves to
      that module's function. */
  lemma ModuleFunctionWins(earlier: map<string, Value>, q: string, fs: set<string>, cs: map<string, Value>,
                           later: map<string, Value>, id: string)
    requires id in fs && id !in cs && id !in later
    ensures id in earlier + ModuleNames(q, fs, cs) + later
    ensures (earlier + ModuleNames(q, fs, cs) + later)[id] == Builtin(Qualified(q, id))
  {
    ModuleNamesLookup(q, fs, cs, id);
  }

  /** The table as its three layers, named once so that the lemmas below
      unfold the constant in a single place. */
  lemma AllowedNamesLayers()
    ensures AllowedNames == ModuleNames("math", MathFunctions, MathConstants)
                            + ModuleNames("cmath", CmathFunctions, CmathConstants) + ExplicitNames
  {
  }

  /** A `cmath` function name that neither a `cmath` constant nor an explicit
      entry takes over resolves to the `cmath` function, overriding `math`. */
  lemma CmathFunctionWins(id: string)
    requires id in CmathFunctions && id !in CmathConstants && id !in ExplicitNames
    ensures id in AllowedNames && AllowedNames[id] == Builtin(Qualified("cmath", id))
  {
    AllowedNamesLayers();
    ModuleFunctionWins(ModuleNames("math", MathFunctions, MathConstants), "cmath",
                       CmathFunctions, CmathConstants, ExplicitNames, id);
  }

  /** Every trigonometric name resolves to the `cmath` function, since the
      `cmath` update comes after the `math` one and no explicit entry names it. */
  lemma TrigNamesResolveToCmath(id: string)
    requires id in TrigNames
    ensures id in AllowedNames && AllowedNames[id] == Builtin(Qualified("cmath", id))
  {
    TrigNamesAreCmathOnly(id);
    CmathFunctionWins(id);
  }

  lemma TrigNamesAreCmathOnly(id: string)
    requires id in TrigNames
    ensures id in CmathFunctions && id !in CmathConstants && id !in ExplicitNames
  {
  }

  lemma ForwardTrigIsTrig(id: string)
    requires id in ["sin", "cos", "tan"]
    ensures id in TrigNames && !StartsWith(id, "a")
  {
    assert id[0] != 'a';
  }

  lemma InverseTrigIsTrig(id: string)
    requires id in ["asin", "acos", "atan"]
    ensures id in TrigNames && StartsWith(id, "a")
  {
    assert id[..1] == "a";
  }
}
