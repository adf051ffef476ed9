/** What the evaluator guarantees: name resolution order, operator and call
    rules, the degree-mode policy, the sandbox boundary, and the behaviour of
    `eval_expr` around glyph normalization. */
module SafeEvalProperties {
  import opened PyValues
  import opened Syntax
  import opened Whitelist
  import opened Glyphs
  import opened SafeEvaluator

  /** The argument list succeeds exactly when every argument does, giving
      their values in order; otherwise it fails with the error of the first
      failing argument, all arguments before it having succeeded. */
  lemma {:induction false} ArgumentsAllOrFirstError(ctx: Context, args: seq<Node>)
    ensures VisitArgs(ctx, args).Ok? <==> forall i :: 0 <= i < |args| ==> Visit(ctx, args[i]).Ok?
    ensures VisitArgs(ctx, args).Ok? ==>
      (|VisitArgs(ctx, args).value| == |args|
      && forall i :: 0 <= i < |args| ==> VisitArgs(ctx, args).value[i] == Visit(ctx, args[i]).value)
    ensures VisitArgs(ctx, args).Err? ==>
      exists k :: 0 <= k < |args| && Visit(ctx, args[k]) == Err(VisitArgs(ctx, args).error)
        && forall i :: 0 <= i < k ==> Visit(ctx, args[i]).Ok?
    decreases args
  {
    if args != [] {
      ArgumentsAllOrFirstError(ctx, args[1..]);
      var tail := args[1..];
      assert forall i :: 1 <= i < |args| ==> args[i] == tail[i - 1];
      if Visit(ctx, args[0]).Ok? && VisitArgs(ctx, tail).Err? {
        var k :| 0 <= k < |tail| && Visit(ctx, tail[k]) == Err(VisitArgs(ctx, tail).error)
          && forall i :: 0 <= i < k ==> Visit(ctx, tail[i]).Ok?;
        assert Visit(ctx, args[k + 1]) == Err(VisitArgs(ctx, args).error);
      }
    }
  }

  /** A bare name resolves to the name table first, so a variable can never
      shadow a table entry; then to the variables; otherwise it is undefined.
      A function's name evaluates to the function object itself. */
  lemma NameResolution(ctx: Context, id: string)
    ensures id in ctx.names ==> Visit(ctx, Name(id)) == Ok(ctx.names[id])
    ensures id !in ctx.names && id in ctx.variables ==> Visit(ctx, Name(id)) == Ok(ctx.variables[id])
    ensures id !in ctx.names && id !in ctx.variables ==> Visit(ctx, Name(id)) == Err(NameNotDefined(id))
    ensures Visit(ctx, Name(id)).Err? ==> Message(Visit(ctx, Name(id)).error) == "Name '" + id + "' is not defined"
  {
  }

  /** A binary node visits its left operand, then its right one; the first
      failure is the node's failure. */
  lemma BinOpOperandOrder(ctx: Context, left: Node, op: Operator, right: Node)
    ensures Visit(ctx, left).Err? ==> Visit(ctx, BinOp(left, op, right)) == Visit(ctx, left)
    ensures Visit(ctx, left).Ok? && Visit(ctx, right).Err? ==> Visit(ctx, BinOp(left, op, right)) == Visit(ctx, right)
  {
  }

  /** With both operands evaluated, `/` fails with "Division by zero" exactly
      when the right value equals 0; any other operator, or a nonzero
      divisor, goes to the operator table, and a class the table lacks fails
      with a `KeyError`. */
  lemma BinOpDispatch(ctx: Context, left: Node, op: Operator, right: Node)
    requires Visit(ctx, left).Ok? && Visit(ctx, right).Ok?
    ensures var l, r := Visit(ctx, left).value, Visit(ctx, right).value;
      && (Visit(ctx, BinOp(left, op, right)) == Err(ZeroDivision) <==> op == Div && IsZero(r))
      && (!(op == Div && IsZero(r)) && op in AllowedOperators ==>
            Visit(ctx, BinOp(left, op, right)) == Lift(ctx.rt.apply(AllowedOperators[op], [l, r])))
      && (op !in AllowedOperators ==> Visit(ctx, BinOp(left, op, right)) == Err(MissingOperator(op)))
  {
  }

  /** Unary `+`, `~` and `not` have no table entry, so they fail with a
      `KeyError` before their operand is even visited; unary minus applies
      `operator.neg` to the operand's value. */
  lemma UnaryOpDispatch(ctx: Context, op: Operator, operand: Node)
    ensures op in {Invert, Not, UAdd} ==> Visit(ctx, UnaryOp(op, operand)) == Err(MissingOperator(op))
    ensures op == USub && Visit(ctx, operand).Ok? ==>
      Visit(ctx, UnaryOp(op, operand)) == Lift(ctx.rt.apply(Negate, [Visit(ctx, operand).value]))
    ensures op == USub && Visit(ctx, operand).Err? ==> Visit(ctx, UnaryOp(op, operand)) == Visit(ctx, operand)
  {
  }

  /** Every node kind other than the six handled ones is rejected. */
  lemma OtherNodesUnsupported(ctx: Context, kind: string)
    ensures Visit(ctx, Other(kind)) == Err(UnsupportedOperation)
    ensures Message(UnsupportedOperation) == "Unsupported operation"
  {
  }

  /** A call whose callee is not a plain name in the name table is rejected
      before any argument is visited, even when a variable of that name
      exists; a non-name callee is reported as `unknown`. */
  lemma CallRejected(ctx: Context, func: Node, args: seq<Node>, keywords: seq<Keyword>)
    requires !func.Name? || func.id !in ctx.names
    ensures func.Name? ==> Visit(ctx, Call(func, args, keywords)) == Err(FunctionNotAllowed(func.id))
    ensures !func.Name? ==> Visit(ctx, Call(func, args, keywords)) == Err(FunctionNotAllowed("unknown"))
  {
  }

  /** Keyword arguments are never visited and never passed on. */
  lemma KeywordsIgnored(ctx: Context, func: Node, args: seq<Node>, k1: seq<Keyword>, k2: seq<Keyword>)
    ensures Visit(ctx, Call(func, args, k1)) == Visit(ctx, Call(func, args, k2))
  {
  }

  /** An allowed call evaluates all its arguments before dispatch: it fails
      with the first failing argument's error, without short-circuit. */
  lemma CallArgumentsStrict(ctx: Context, id: string, args: seq<Node>, keywords: seq<Keyword>)
    requires id in ctx.names
    ensures VisitArgs(ctx, args).Err? ==>
      exists k :: 0 <= k < |args| && Visit(ctx, Call(Name(id), args, keywords)) == Visit(ctx, args[k])
    ensures VisitArgs(ctx, args).Ok? ==>
      Visit(ctx, Call(Name(id), args, keywords)) == Dispatch(ctx, id, ctx.names[id], VisitArgs(ctx, args).value)
  {
    ArgumentsAllOrFirstError(ctx, args);
  }

  /** Outside degree mode (any mode text other than exactly `deg`), and for
      every name other than the six trigonometric ones, the table entry is
      called on the argument values as they are. */
  lemma NoConversion(ctx: Context, id: string, args: seq<Node>, keywords: seq<Keyword>, values: seq<Value>)
    requires ctx.mode != "deg" || id !in TrigNames
    requires id in ctx.names && VisitArgs(ctx, args) == Ok(values)
    ensures Visit(ctx, Call(Name(id), args, keywords)) == Lift(ctx.rt.call(ctx.names[id], values))
  {
  }

  /** In degree mode, `sin`, `cos` and `tan` convert every argument from
      degrees to radians before the call, at that call only. */
  lemma ForwardTrigConvertsArguments(ctx: Context, id: string, args: seq<Node>, keywords: seq<Keyword>,
                                     values: seq<Value>, converted: seq<Value>)
    requires ctx.mode == "deg" && id in ["sin", "cos", "tan"] && id in ctx.names
    requires VisitArgs(ctx, args) == Ok(values)
    requires |converted| == |values|
    requires forall i :: 0 <= i < |values| ==> ctx.rt.radians(values[i]) == Returns(converted[i])
    ensures Visit(ctx, Call(Name(id), args, keywords)) == Lift(ctx.rt.call(ctx.names[id], converted))
  {
    ForwardTrigIsTrig(id);
    var r := RadiansAll(ctx.rt, values);
    assert r.value == converted;
  }

  /** In degree mode, a failing conversion fails the call. */
  lemma ForwardTrigConversionFailure(ctx: Context, id: string, args: seq<Node>, keywords: seq<Keyword>,
                                     values: seq<Value>, k: nat)
    requires ctx.mode == "deg" && id in ["sin", "cos", "tan"] && id in ctx.names
    requires VisitArgs(ctx, args) == Ok(values)
    requires k < |values| && ctx.rt.radians(values[k]).Raises?
    ensures Visit(ctx, Call(Name(id), args, keywords)).Err?
  {
    ForwardTrigIsTrig(id);
    CallArgumentsStrict(ctx, id, args, keywords);
    assert RadiansAll(ctx.rt, values).Err?;
  }

  /** In degree mode, `asin`, `acos` and `atan` call the function on the
      values as they are and convert its result from radians to degrees,
      except that `None` is passed through. */
  lemma InverseTrigConvertsResult(ctx: Context, id: string, args: seq<Node>, keywords: seq<Keyword>,
                                  values: seq<Value>, result: Value)
    requires ctx.mode == "deg" && id in ["asin", "acos", "atan"] && id in ctx.names
    requires VisitArgs(ctx, args) == Ok(values)
    requires ctx.rt.call(ctx.names[id], values) == Returns(result)
    ensures result == NoneValue ==> Visit(ctx, Call(Name(id), args, keywords)) == Ok(NoneValue)
    ensures result != NoneValue ==> Visit(ctx, Call(Name(id), args, keywords)) == Lift(ctx.rt.degrees(result))
  {
    InverseTrigIsTrig(id);
  }

  /** Any two modes other than `deg` give every tree the same result. */
  lemma {:induction false} OnlyDegModeConverts(ctx: Context, node: Node, mode: string)
    requires ctx.mode != "deg" && mode != "deg"
    ensures Visit(ctx, node) == Visit(ctx.(mode := mode), node)
    decreases node
  {
    var other := ctx.(mode := mode);
    match node
    case Expression(body) => OnlyDegModeConverts(ctx, body, mode);
    case Num(_) =>
    case BinOp(left, _, right) =>
      OnlyDegModeConverts(ctx, left, mode);
      OnlyDegModeConverts(ctx, right, mode);
    case UnaryOp(_, operand) => OnlyDegModeConverts(ctx, operand, mode);
    case Call(_, args, _) => OnlyDegModeConvertsArgs(ctx, args, mode);
    case Name(_) =>
    case Other(_) =>
  }

  lemma {:induction false} OnlyDegModeConvertsArgs(ctx: Context, args: seq<Node>, mode: string)
    requires ctx.mode != "deg" && mode != "deg"
    ensures VisitArgs(ctx, args) == VisitArgs(ctx.(mode := mode), args)
    decreases args
  {
    if args != [] {
      OnlyDegModeConverts(ctx, args[0], mode);
      OnlyDegModeConvertsArgs(ctx, args[1..], mode);
    }
  }

  /** The names `visit` may look up among the variables: those of `Name`
      nodes it visits (callees and keyword values are never looked up). */
  function ReadNames(node: Node): set<string>
    decreases node
  {
    match node
    case Expression(body) => ReadNames(body)
    case Num(_) => {}
    case BinOp(left, _, right) => ReadNames(left) + ReadNames(right)
    case UnaryOp(_, operand) => ReadNames(operand)
    case Call(_, args, _) => ReadNamesOfArgs(args)
    case Name(id) => {id}
    case Other(_) => {}
  }

  function ReadNamesOfArgs(args: seq<Node>): set<string>
    decreases args
  {
    if args == [] then {} else ReadNames(args[0]) + ReadNamesOfArgs(args[1..])
  }

  /** Two variable maps agree on the names in `ids` that the name table does
      not already answer. */
  ghost predicate AgreeOn(names: map<string, Value>, v1: map<string, Value>, v2: map<string, Value>, ids: set<string>) {
    forall id :: id in ids && id !in names ==>
      (id in v1 <==> id in v2) && (id in v1 ==> v1[id] == v2[id])
  }

  /** The sandbox boundary: a tree's result depends on the variables only
      through the names it reads that the table does not define. */
  lemma {:induction false} OnlyReadVariablesMatter(ctx: Context, node: Node, variables: map<string, Value>)
    requires AgreeOn(ctx.names, ctx.variables, variables, ReadNames(node))
    ensures Visit(ctx, node) == Visit(ctx.(variables := variables), node)
    decreases node
  {
    match node
    case Expression(body) => OnlyReadVariablesMatter(ctx, body, variables);
    case Num(_) =>
    case BinOp(left, _, right) =>
      OnlyReadVariablesMatter(ctx, left, variables);
      OnlyReadVariablesMatter(ctx, right, variables);
    case UnaryOp(_, operand) => OnlyReadVariablesMatter(ctx, operand, variables);
    case Call(_, args, _) => OnlyReadVariablesMatterArgs(ctx, args, variables);
    case Name(id) =>
    case Other(_) =>
  }

  lemma {:induction false} OnlyReadVariablesMatterArgs(ctx: Context, args: seq<Node>, variables: map<string, Value>)
    requires AgreeOn(ctx.names, ctx.variables, variables, ReadNamesOfArgs(args))
    ensures VisitArgs(ctx, args) == VisitArgs(ctx.(variables := variables), args)
    decreases args
  {
    if args != [] {
      OnlyReadVariablesMatter(ctx, args[0], variables);
      OnlyReadVariablesMatterArgs(ctx, args[1..], variables);
    }
  }

  /** The runtime behaviour of `cmath.asin`, `cmath.acos` and `cmath.atan`:
      when they return, they return a `complex` (other `cmath` functions,
      such as `phase` or `isclose`, need not). */
  ghost predicate CmathInverseTrigReturnsComplex(rt: Runtime) {
    forall name, args | name in ["asin", "acos", "atan"] ::
      rt.call(Builtin(Qualified("cmath", name)), args).Returns? ==>
        rt.call(Builtin(Qualified("cmath", name)), args).value.Complex?
  }

  /** The runtime behaviour of `math.degrees`: it rejects a `complex`. */
  ghost predicate DegreesRejectsComplex(rt: Runtime) {
    forall re, im :: rt.degrees(Complex(re, im)).Raises?
  }

  /** A degree-mode call of `asin`, `acos` or `atan` whose table entry is a
      `cmath` function fails: the result, if any, is complex, and
      `math.degrees` refuses a complex. */
  lemma {:induction false} CmathInverseTrigFailsInDegreeMode(ctx: Context, id: string, args: seq<Node>, keywords: seq<Keyword>)
    requires ctx.mode == "deg" && id in ["asin", "acos", "atan"]
    requires id in ctx.names && ctx.names[id] == Builtin(Qualified("cmath", id))
    requires CmathInverseTrigReturnsComplex(ctx.rt) && DegreesRejectsComplex(ctx.rt)
    ensures Visit(ctx, Call(Name(id), args, keywords)).Err?
  {
    InverseTrigIsTrig(id);
    if VisitArgs(ctx, args).Ok? {
      var values := VisitArgs(ctx, args).value;
      var o := ctx.rt.call(Builtin(Qualified("cmath", id)), values);
      if o.Returns? {
        assert o.value.Complex?;
      }
    }
  }

  /** With the calculator's own name table, which takes `asin`, `acos` and
      `atan` from `cmath`, every inverse trigonometric call fails in degree
      mode. */
  lemma InverseTrigFailsInDegreeMode(ctx: Context, id: string, args: seq<Node>, keywords: seq<Keyword>)
    requires ctx.mode == "deg" && id in ["asin", "acos", "atan"] && ctx.names == AllowedNames
    requires CmathInverseTrigReturnsComplex(ctx.rt) && DegreesRejectsComplex(ctx.rt)
    ensures Visit(ctx, Call(Name(id), args, keywords)).Err?
  {
    InverseTrigIsTrig(id);
    TrigNamesResolveToCmath(id);
    CmathInverseTrigFailsInDegreeMode(ctx, id, args, keywords);
  }

  /** `eval_expr` reads only the normalized text: texts that normalize alike
      evaluate alike, and normalizing beforehand changes nothing. */
  lemma EvaluateSeesNormalizedText(ctx: Context, a: string, b: string)
    requires NormalizeGlyphs(a) == NormalizeGlyphs(b)
    ensures Evaluate(ctx, a) == Evaluate(ctx, b)
  {
  }

  lemma EvaluateIgnoresPriorNormalization(ctx: Context, expr: string)
    ensures Evaluate(ctx, NormalizeGlyphs(expr)) == Evaluate(ctx, expr)
  {
    NormalizeIdempotent(expr);
  }

  /** The calculator's glyphs evaluate as the ASCII operators. */
  lemma GlyphsEvaluateAsOperators(ctx: Context)
    ensures Evaluate(ctx, "6÷2×(1+2)") == Evaluate(ctx, "6/2*(1+2)")
  {
    DivideTimesExample();
    AsciiExampleUnchanged();
  }

  /** A parse failure and an evaluation failure both come back as text
      behind `Error: `; success carries the tree's value. */
  lemma EvaluateOutcomes(ctx: Context, expr: string)
    ensures ctx.rt.parse(NormalizeGlyphs(expr)).Raises? ==>
      Evaluate(ctx, expr) == Failed("Error: " + ctx.rt.parse(NormalizeGlyphs(expr)).message)
    ensures ctx.rt.parse(NormalizeGlyphs(expr)).Returns? ==>
      var v := Visit(ctx, ctx.rt.parse(NormalizeGlyphs(expr)).value);
      (v.Ok? ==> Evaluate(ctx, expr) == Evaluated(v.value))
      && (v.Err? ==> Evaluate(ctx, expr) == Failed("Error: " + Message(v.error)))
  {
  }
}
