/**
 * Values shared by the three stages of the compiler: an optional value,
 * the failure-compatible result type, and the one error type that the
 * lexer, the parser and the lowering engine all fail with. Every `panic`
 * of the Go compiler is one of the `Error` constructors here.
 */
module Common {

  datatype Option<+T> = None | Some(value: T)

  /** The kinds of failure. The pipeline stops at the first one. */
  datatype Error =
    /** The lexer found a rune that starts no token, at rune index `at`. */
    | LexError(at: nat)
    /** `expect`, `expectNumber` or `expectIdentifier` found the wrong token at cursor `at`. */
    | ParseError(expected: string, at: nat)
    /** The cursor ran past the last token (a nil `currentToken` in `parser.go`). */
    | UnexpectedEnd(at: nat)
    /** `findVariable` exhausted the variable-parent chain. */
    | VariableNotFound(name: string)
    /** `findFunction` exhausted the function-parent chain. */
    | FunctionNotFound(name: string)
    /** `resolveExpr` was handed a statement node. */
    | InvalidNodeType

  datatype Result<+T> = Ok(value: T) | Err(error: Error) {
    predicate IsFailure() {
      Err?
    }

    function PropagateFailure<U>(): Result<U>
      requires Err?
    {
      Err(error)
    }

    function Extract(): T
      requires Ok?
    {
      value
    }
  }
}
