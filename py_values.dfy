/** The Python values the calculator's evaluator can meet, and the two string
    tests it uses (`==` against zero and `str.startswith`). */
module PyValues {

  /** A Python float: a finite value (its binary rounding is not modelled), an
      infinity or a NaN. */
  datatype Double = Finite(x: real) | Infinity(negative: bool) | NaN

  /** The objects an evaluation can produce. Numbers keep their Python type
      (`int`, `bool`, `float`, `complex`) because operators and functions treat
      them differently; `Builtin` is a function object such as `cmath.sin`;
      `Opaque` is any other object a library function may return (the tuple
      of `frexp`, say). */
  datatype Value =
    | Int(i: int)
    | Bool(b: bool)
    | Float(f: Double)
    | Complex(re: Double, im: Double)
    | Builtin(qualifiedName: string)
    | NoneValue
    | Opaque(typeName: string)

  /** Python's `v == 0`: true for the zero of every numeric type (`False`,
      `0`, `0.0`, `-0.0`, `0j`), false for NaN, infinities and non-numbers. */
  predicate IsZero(v: Value) {
    match v
    case Int(i) => i == 0
    case Bool(b) => !b
    case Float(f) => f == Finite(0.0)
    case Complex(re, im) => re == Finite(0.0) && im == Finite(0.0)
    case _ => false
  }

  /** Python's `s.startswith(prefix)`. */
  predicate StartsWith(s: string, prefix: string) {
    |prefix| <= |s| && s[..|prefix|] == prefix
  }

  /** A string that starts with `p + q` starts with `p`. */
  lemma StartsWithShorterPrefix(s: string, p: string, q: string)
    requires StartsWith(s, p + q)
    ensures StartsWith(s, p)
  {
    assert s[..|p|] == (s[..|p + q|])[..|p|];
    assert (p + q)[..|p|] == p;
  }

  /** `prefix + rest` starts with `prefix`, whatever `rest` is. */
  lemma StartsWithConcat(prefix: string, rest: string)
    ensures StartsWith(prefix + rest, prefix)
  {
    assert (prefix + rest)[..|prefix|] == prefix;
  }
}
