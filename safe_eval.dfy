/** The sandboxed evaluator (`SafeEval`): a structural walk over a parsed
    tree that reaches only the operator table, the name table and a
    read-only variable map, and turns every failure into an `Error: …` text. */
module SafeEvaluator {
  import opened PyValues
  import opened Syntax
  import opened Whitelist
  import opened Glyphs

  /** What a call into code outside the model does: return, or raise an
      exception whose `str` is `message`. */
  datatype Outcome<+T> = Returns(value: T) | Raises(message: string)

  /** The foreign components the evaluator calls: Python's parser in `eval`
      mode, the `operator` functions, calling an entry of the name table,
      `math.radians`, `math.degrees` and `str` (which raises, for instance,
      on an `int` with more digits than Python's conversion limit). Their
      numeric behaviour is not modelled; each may fail. */
  datatype Runtime = Runtime(
    parse: string -> Outcome<Node>,
    apply: (Arith, seq<Value>) -> Outcome<Value>,
    call: (Value, seq<Value>) -> Outcome<Value>,
    radians: Value -> Outcome<Value>,
    degrees: Value -> Outcome<Value>,
    str: Value -> Outcome<string>)

  /** The exceptions `visit` raises itself, and those it lets through. */
  datatype EvalError =
    | ZeroDivision                  // ZeroDivisionError for `/` by a zero value
    | FunctionNotAllowed(name: string)
    | NameNotDefined(id: string)
    | UnsupportedOperation
    | MissingOperator(op: Operator) // KeyError from the operator table
    | Raised(message: string)       // anything the runtime raised

  /** `str(e)` of each exception. */
  function Message(e: EvalError): string {
    match e
    case ZeroDivision => "Division by zero"
    case FunctionNotAllowed(name) => "Function " + name + " not allowed"
    case NameNotDefined(id) => "Name '" + id + "' is not defined"
    case UnsupportedOperation => "Unsupported operation"
    case MissingOperator(op) => "<class 'ast." + ClassName(op) + "'>"
    case Raised(message) => message
  }

  datatype Result<+T> = Ok(value: T) | Err(error: EvalError) {
    predicate IsFailure() { Err? }
    function PropagateFailure<U>(): Result<U> requires Err? { Err(error) }
    function Extract(): T requires Ok? { value }
  }

  /** A foreign call's outcome as an evaluation result. */
  function Lift<T>(o: Outcome<T>): Result<T> {
    match o
    case Returns(v) => Ok(v)
    case Raises(m) => Err(Raised(m))
  }

  /** What `visit` reads besides the tree: the runtime, the name table
      (`self.ALLOWED_NAMES`, which the `SafeEval` class fixes to
      `AllowedNames`), `self.mode` and `self.variables`. */
  datatype Context = Context(rt: Runtime, names: map<string, Value>, mode: string, variables: map<string, Value>)

  /** `SafeEval.visit`. */
  function Visit(ctx: Context, node: Node): Result<Value>
    decreases node
  {
    match node
    case Expression(body) => Visit(ctx, body)
    case Num(n) => Ok(n)
    case BinOp(left, op, right) =>
      var l :- Visit(ctx, left);
      var r :- Visit(ctx, right);
      if op == Div && IsZero(r) then Err(ZeroDivision)
      else if op !in AllowedOperators then Err(MissingOperator(op))
      else Lift(ctx.rt.apply(AllowedOperators[op], [l, r]))
    case UnaryOp(op, operand) =>
      // the table lookup is evaluated before the operand
      if op !in AllowedOperators then Err(MissingOperator(op))
      else
        var v :- Visit(ctx, operand);
        Lift(ctx.rt.apply(AllowedOperators[op], [v]))
    case Call(func, args, _) =>
      if !func.Name? || func.id !in ctx.names then
        Err(FunctionNotAllowed(if func.Name? then func.id else "unknown"))
      else
        var values :- VisitArgs(ctx, args);
        Dispatch(ctx, func.id, ctx.names[func.id], values)
    case Name(id) =>
      if id in ctx.names then Ok(ctx.names[id])
      else if id in ctx.variables then Ok(ctx.variables[id])
      else Err(NameNotDefined(id))
    case Other(_) => Err(UnsupportedOperation)
  }

  /** `[self.visit(arg) for arg in node.args]`: left to right, stopping at
      the first exception. */
  function VisitArgs(ctx: Context, args: seq<Node>): Result<seq<Value>>
    decreases args
  {
    if args == [] then Ok([])
    else
      var v :- Visit(ctx, args[0]);
      var vs :- VisitArgs(ctx, args[1..]);
      Ok([v] + vs)
  }

  /** `[math.radians(a) for a in args]`. */
  function RadiansAll(rt: Runtime, args: seq<Value>): (r: Result<seq<Value>>)
    ensures r.Ok? <==> forall i :: 0 <= i < |args| ==> rt.radians(args[i]).Returns?
    ensures r.Ok? ==> (|r.value| == |args|
      && forall i :: 0 <= i < |args| ==> rt.radians(args[i]) == Returns(r.value[i]))
  {
    if args == [] then Ok([])
    else
      var a :- Lift(rt.radians(args[0]));
      var rest :- RadiansAll(rt, args[1..]);
      Ok([a] + rest)
  }

  /** Calling the table entry `f` found under `id` with evaluated arguments,
      with the degree-mode conversion around the six trigonometric names. */
  function Dispatch(ctx: Context, id: string, f: Value, args: seq<Value>): Result<Value> {
    if ctx.mode == "deg" && id in TrigNames then
      if StartsWith(id, "a") then
        var result :- Lift(ctx.rt.call(f, args));
        if result == NoneValue then Ok(NoneValue) else Lift(ctx.rt.degrees(result))
      else
        var converted :- RadiansAll(ctx.rt, args);
        Lift(ctx.rt.call(f, converted))
    else
      Lift(ctx.rt.call(f, args))
  }

  /** What `eval_expr` returns: the value, or a text beginning `Error: `. */
  datatype EvalOutcome = Evaluated(value: Value) | Failed(text: string)

  /** `SafeEval.eval_expr`: normalize the glyphs, parse, visit; any exception
      becomes its message behind `Error: `. */
  function Evaluate(ctx: Context, expr: string): (r: EvalOutcome)
    ensures r.Failed? ==> StartsWith(r.text, "Error: ")
    ensures r.Evaluated? <==>
      ctx.rt.parse(NormalizeGlyphs(expr)).Returns? && Visit(ctx, ctx.rt.parse(NormalizeGlyphs(expr)).value).Ok?
  {
    match ctx.rt.parse(NormalizeGlyphs(expr))
    case Raises(m) =>
      StartsWithConcat("Error: ", m);
      Failed("Error: " + m)
    case Returns(tree) =>
      match Visit(ctx, tree)
      case Ok(v) => Evaluated(v)
      case Err(e) =>
        StartsWithConcat("Error: ", Message(e));
        Failed("Error: " + Message(e))
  }

  /** The evaluator object: its mode is set at construction and by
      `SetMode`; its variable map starts empty and nothing writes it. */
  class SafeEval {
    const rt: Runtime
    var mode: string
    const variables: map<string, Value>

    constructor (rt: Runtime, mode: string := "rad")
      ensures this.rt == rt && this.mode == mode && variables == map[]
    {
      this.rt := rt;
      this.mode := mode;
      this.variables := map[];
    }

    /** `set_mode`: changes the mode and nothing else. */
    method SetMode(mode: string)
      modifies this`mode
      ensures this.mode == mode
    {
      this.mode := mode;
    }

    function State(): Context
      reads this
    {
      Context(rt, AllowedNames, mode, variables)
    }

    /** `eval_expr` on the object's current mode and variables. */
    function EvalExpr(expr: string): (r: EvalOutcome)
      reads this
      ensures r.Failed? ==> StartsWith(r.text, "Error: ")
      ensures r == Evaluate(Context(rt, AllowedNames, mode, variables), expr)
    {
      Evaluate(State(), expr)
    }
  }
}
