/**
 * The syntax tree (parser.go). The source has one `Node` record with a
 * `nodeType` tag and optional fields; here every `NodeType` is a
 * constructor carrying only the fields its kind uses. Statement lists that
 * the source links through `next` (program, block body, call arguments)
 * are sequences.
 */
module Ast {
  import opened Common

  datatype Node =
    | Sum(lhs: Node, rhs: Node)
    | Sub(lhs: Node, rhs: Node)
    | Mul(lhs: Node, rhs: Node)
    | Div(lhs: Node, rhs: Node)
    | Equal(lhs: Node, rhs: Node)
    | NotEqual(lhs: Node, rhs: Node)
    | LT(lhs: Node, rhs: Node)
    | LE(lhs: Node, rhs: Node)
    | Return(lhs: Node)
    /** `var lhs = rhs;` */
    | Alloc(lhs: Node, rhs: Node)
    /** `lhs = rhs;` */
    | Assign(lhs: Node, rhs: Node)
    | LVar(name: string)
    | If(cond: Node, thenBranch: Node, elseBranch: Option<Node>)
    | Block(stmts: seq<Node>)
    | Num(value: int)
    | For(body: Node)
    | Break
    /** `fnc name(params) body` */
    | Function(name: string, params: seq<string>, body: Node)
    | FunctionCall(name: string, args: seq<Node>)
  {
    /** One of the eight arithmetic and comparison kinds. */
    predicate IsBinary() {
      Sum? || Sub? || Mul? || Div? || Equal? || NotEqual? || LT? || LE?
    }

    /** The `str` field of the source's node: set for variables, calls and function definitions. */
    function Str(): string {
      match this
      case LVar(x) => x
      case FunctionCall(f, _) => f
      case Function(f, _, _) => f
      case _ => ""
    }
  }
}
