/** The part of Python's `ast` module that the evaluator distinguishes. */
module Syntax {
  import opened PyValues

  /** The operator classes of the `ast` module: the binary ones (`Add` …
      `FloorDiv`) and the unary ones (`Invert` … `USub`). A `BinOp` or
      `UnaryOp` node carries one of them; the evaluator looks them up by class. */
  datatype Operator =
    | Add | Sub | Mult | MatMult | Div | Mod | Pow
    | LShift | RShift | BitOr | BitXor | BitAnd | FloorDiv
    | Invert | Not | UAdd | USub

  /** The class name, as `str(KeyError(cls))` shows it inside `<class 'ast.…'>`. */
  function ClassName(op: Operator): string {
    match op
    case Add => "Add"
    case Sub => "Sub"
    case Mult => "Mult"
    case MatMult => "MatMult"
    case Div => "Div"
    case Mod => "Mod"
    case Pow => "Pow"
    case LShift => "LShift"
    case RShift => "RShift"
    case BitOr => "BitOr"
    case BitXor => "BitXor"
    case BitAnd => "BitAnd"
    case FloorDiv => "FloorDiv"
    case Invert => "Invert"
    case Not => "Not"
    case UAdd => "UAdd"
    case USub => "USub"
  }

  /** A parsed expression tree, with exactly the node kinds the evaluator
      tells apart. `Num` is a literal `int`, `float` or `complex` constant;
      `Other` is every other node kind (comparisons, attribute access,
      subscripts, string or boolean constants, lambdas, …), named by its class. */
  datatype Node =
    | Expression(body: Node)
    | Num(n: Value)
    | BinOp(left: Node, op: Operator, right: Node)
    | UnaryOp(op: Operator, operand: Node)
    | Call(func: Node, args: seq<Node>, keywords: seq<Keyword>)
    | Name(id: string)
    | Other(kind: string)

  /** A `name=value` argument of a call; `arg` is empty for `**mapping`. */
  datatype Keyword = Keyword(arg: string, value: Node)
}
