/**
 * The program tree. `Statement` and `Expression` hold only the forms the parser
 * builds; `AST` is the append-only statement list the parser fills in place.
 */
module Ast {
  import opened Ascii

  datatype Expression =
    /** Placeholder: the expression was not captured. */
    | None
    | Identifier(name: string)
    | Integer(value: i64)

  datatype Statement =
    | Let(identifier: string, expression: Expression)
    | Return(value: Expression)
    /** An expression used as a statement (`Statement::Expression`). */
    | ExpressionStatement(expression: Expression)

  /** The precedence floor handed to `parse_expression`; the parser only ever uses `Lowest`. */
  datatype Priority = Lowest

  class AST {
    var statements: seq<Statement>

    /** `AST::new`: a tree holding exactly the given statements, in order. */
    constructor (st: seq<Statement>)
      ensures statements == st
    {
      statements := st;
    }

    /** `AST::default`: a tree with no statements. */
    constructor Default()
      ensures statements == []
    {
      statements := [];
    }

    /** `push`: append a statement; the earlier statements stay as they were. */
    method Push(st: Statement)
      modifies this
      ensures statements == old(statements) + [st]
      ensures |statements| == |old(statements)| + 1 && statements[|statements| - 1] == st
      ensures forall i :: 0 <= i < |old(statements)| ==> statements[i] == old(statements)[i]
    {
      statements := statements + [st];
    }
  }
}
