/**
 * The syntax tree the parser builds: one constructor per node class of
 * ec_parser.py, with expressions and statements kept apart.
 */
module Ast {
  import opened Wrappers
  import opened Tokens

  /** The operator a macro keyword multiplies or divides by. */
  datatype MacroOp = Mul | Div

  /**
   * Expression nodes. `Number` keeps the digit text of a numeric literal
   * (`isFloat` tells a float from an int); `EcKeyword` is a macro
   * expansion `var1 op var2`; `ScanCall` is the `Scan()` an initialiser
   * may hold.
   */
  datatype Expr =
    | Number(text: string, isFloat: bool)
    | Ident(name: string)
    | Literal(value: string)
    | BinOp(left: Expr, opToken: Token, right: Expr)
    | EcKeyword(var1: string, op: MacroOp, var2: string)
    | SquareRoot(node: Expr)
    | ScanCall

  /** One declared name and its initialiser, if any. */
  datatype Binding = Binding(id: Expr, init: Option<Expr>)

  /** What a `for` loop declares: a declaration, or a list of bindings. */
  datatype ForInit =
    | InitDeclaration(dataType: string, bindings: seq<Binding>)
    | InitList(bindings: seq<Binding>)

  /** Statement nodes; `MacroStmt` is a macro expansion standing as a statement. */
  datatype Stmt =
    | Declaration(dataType: string, bindings: seq<Binding>)
    | Assignment(target: Expr, op: string, value: Expr)
    | Unary(target: Expr, op: string)
    | Input(target: Expr)
    | Output(statement: string, values: seq<Expr>)
    | Return(value: Expr)
    | Loop(loopType: string, condition: Expr, body: Body)
    | For(init: ForInit, condition: Expr, step: Stmt, body: Body)
    | Conditional(condition: Expr, ifBody: Body, elifConditions: seq<Expr>,
                  elifBodies: seq<Body>, elseBody: Option<Body>)
    | MacroStmt(macro: Expr)

  datatype Body = Body(statements: seq<Stmt>)

  datatype Program = Program(body: Body)

  // ---------------------------------------------------------------------
  // Macro keywords
  // ---------------------------------------------------------------------

  /**
   * How a macro keyword expands: two operands combined by `op`, or one
   * operand combined with a fixed constant (kept as its decimal text).
   * `sqrt` marks the two expansions that are wrapped in a square root.
   */
  datatype Shape =
    | TwoParam(op: MacroOp, sqrt: bool)
    | OneParam(op: MacroOp, constant: string)

  /** The expansion of a macro name, tested in the order of the macro branches, or None for any other text. */
  function MacroShape(name: string): Option<Shape> {
    if name == "CV1" then Some(TwoParam(Mul, true))
    else if name == "CV2" then Some(TwoParam(Div, false))
    else if name == "CV3" then Some(TwoParam(Mul, false))
    else if name == "CVK" then Some(OneParam(Div, "1000"))
    else if name == "CKV" then Some(OneParam(Mul, "1000"))
    else if name == "CVM" then Some(OneParam(Mul, "1000"))
    else if name == "CMV" then Some(OneParam(Div, "1000"))
    else if name == "CMK" then Some(OneParam(Div, "1000000"))
    else if name == "CO1" then Some(TwoParam(Div, false))
    else if name == "CO2" then Some(TwoParam(Div, false))
    else if name == "CO3" then Some(TwoParam(Div, false))
    else if name == "CW1" then Some(TwoParam(Div, false))
    else if name == "CW2" then Some(TwoParam(Mul, false))
    else if name == "CW3" then Some(TwoParam(Mul, false))
    else if name == "CWK" then Some(OneParam(Div, "1000"))
    else if name == "CKM" then Some(OneParam(Mul, "1000"))
    else if name == "CMW" then Some(OneParam(Mul, "1000000"))
    else if name == "CWM" then Some(OneParam(Div, "1000000"))
    else if name == "CWH" then Some(OneParam(Div, "745.7"))
    else if name == "CKH" then Some(OneParam(Mul, "1.341"))
    else if name == "CMH" then Some(OneParam(Mul, "1341"))
    else if name == "CHW" then Some(OneParam(Mul, "745.7"))
    else if name == "CHK" then Some(OneParam(Div, "1.341"))
    else if name == "CHM" then Some(OneParam(Div, "1341"))
    else if name == "CA1" then Some(TwoParam(Div, false))
    else if name == "CA2" then Some(TwoParam(Div, false))
    else if name == "CA3" then Some(TwoParam(Div, true))
    else if name == "CMA" then Some(OneParam(Div, "1000"))
    else if name == "CAM" then Some(OneParam(Mul, "1000"))
    else if name == "CCH" then Some(TwoParam(Mul, false))
    else if name == "CCA" then Some(TwoParam(Div, false))
    else if name == "CHTM" then Some(OneParam(Mul, "60"))
    else if name == "CMTS" then Some(OneParam(Mul, "60"))
    else if name == "CHTS" then Some(OneParam(Mul, "3600"))
    else if name == "CMTH" then Some(OneParam(Div, "60"))
    else if name == "CSTM" then Some(OneParam(Div, "60"))
    else if name == "CSTH" then Some(OneParam(Div, "3600"))
    else None
  }
}
