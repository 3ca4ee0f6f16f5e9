/**
 * The parser as recursive functions over the token list.
 *
 * Every routine takes the tokens `T` and the cursor `i`, the number of
 * tokens consumed so far: the current token is `T[i - 1]`. Consuming
 * moves the cursor one step while tokens remain and otherwise leaves it,
 * so at the end of the list the last token stays current. A routine
 * returns the node it built and the cursor after it, or the error that
 * stopped the parse.
 */
module ParseSpec {
  import opened Wrappers
  import opened Constants
  import opened Tokens
  import opened Ast

  /**
   * Why a parse stopped: a syntax error the parser raises itself, or an
   * interpreter error (an attribute of None, an unbound local, endless
   * recursion) that the code runs into.
   */
  datatype ParseError = SyntaxError | ParseCrash

  /** A node and the cursor after it. */
  datatype Parsed<+N> = Parsed(node: N, next: nat)

  type Outcome<+N> = Result<Parsed<N>, ParseError>

  /** The head of a `for` loop; a step of None was left unbound. */
  datatype ForHeader = ForHeader(init: ForInit, condition: Expr, step: Option<Stmt>)

  /** The alternatives after an `if` body: the `elseif` conditions and bodies, and the last `else` body. */
  datatype Alternatives = Alternatives(conditions: seq<Expr>, bodies: seq<Body>, elseBody: Option<Body>)

  // ---------------------------------------------------------------------
  // The cursor
  // ---------------------------------------------------------------------

  function Cur(T: seq<Token>, i: nat): Token
    requires 1 <= i <= |T|
  {
    T[i - 1]
  }

  /** The cursor after consuming: one step while tokens remain. */
  function Adv(T: seq<Token>, i: nat): (j: nat)
    requires i <= |T|
    ensures i <= j <= |T| && (j == i <==> i == |T|)
  {
    if i < |T| then i + 1 else i
  }

  /** The token after the current one, if any. */
  function Peek(T: seq<Token>, i: nat): Option<Token>
    requires i <= |T|
  {
    if i < |T| then Some(T[i]) else None
  }

  /** Consume the current token if it has kind `k`, else a syntax error. */
  function Expect(T: seq<Token>, i: nat, k: Kind): Result<nat, ParseError>
    requires 1 <= i <= |T|
  {
    if Cur(T, i).kind == k then Ok(Adv(T, i)) else Err(SyntaxError)
  }

  /** Consume the current token if its text is `v`, else a syntax error. */
  function ExpectValue(T: seq<Token>, i: nat, v: string): Result<nat, ParseError>
    requires 1 <= i <= |T|
  {
    if Cur(T, i).value == v then Ok(Adv(T, i)) else Err(SyntaxError)
  }

  /** The kinds an operand of the expression ladder starts with. */
  predicate StartsOperand(k: Kind) {
    k == LitInt || k == LitFlt || k == DelLParen || k == Identifier
  }

  // ---------------------------------------------------------------------
  // Arithmetic expressions
  // ---------------------------------------------------------------------

  /** An int or float literal, a parenthesised additive expression or a name. */
  function ParsePrimary(T: seq<Token>, i: nat): (r: Outcome<Expr>)
    requires 1 <= i <= |T|
    ensures r.Ok? ==> i <= r.value.next <= |T| && StartsOperand(Cur(T, i).kind)
    decreases |T| - i, 0
  {
    var t := Cur(T, i);
    if t.kind == LitInt then Ok(Parsed(Number(t.value, false), Adv(T, i)))
    else if t.kind == LitFlt then Ok(Parsed(Number(t.value, true), Adv(T, i)))
    else if t.kind == DelLParen then
      // at the last token the same `(` is parsed again, without end
      if i == |T| then Err(ParseCrash)
      else
        var e :- ParseAdditive(T, i + 1);
        if Cur(T, e.next).kind == DelRParen then Ok(Parsed(e.node, Adv(T, e.next)))
        else Err(SyntaxError)
    else if t.kind == Identifier then Ok(Parsed(Ident(t.value), Adv(T, i)))
    else Err(SyntaxError)
  }

  predicate IsMultiplicativeOp(k: Kind) { k == OpMul || k == OpDiv || k == OpMod }

  predicate IsAdditiveOp(k: Kind) { k == OpAdd || k == OpSub }

  /** The loop of the multiplicative level: `left` is the tree built so far. */
  function MultiplicativeTail(T: seq<Token>, i: nat, left: Expr): (r: Outcome<Expr>)
    requires 1 <= i <= |T|
    ensures r.Ok? ==> i <= r.value.next <= |T| && !IsMultiplicativeOp(Cur(T, r.value.next).kind)
    decreases |T| - i, 1
  {
    var op := Cur(T, i);
    if IsMultiplicativeOp(op.kind) then
      var right :- ParsePrimary(T, Adv(T, i));
      MultiplicativeTail(T, right.next, BinOp(left, op, right.node))
    else Ok(Parsed(left, i))
  }

  function ParseMultiplicative(T: seq<Token>, i: nat): (r: Outcome<Expr>)
    requires 1 <= i <= |T|
    ensures r.Ok? ==> i <= r.value.next <= |T| && StartsOperand(Cur(T, i).kind)
    decreases |T| - i, 2
  {
    var left :- ParsePrimary(T, i);
    MultiplicativeTail(T, left.next, left.node)
  }

  function AdditiveTail(T: seq<Token>, i: nat, left: Expr): (r: Outcome<Expr>)
    requires 1 <= i <= |T|
    ensures r.Ok? ==> i <= r.value.next <= |T| && !IsAdditiveOp(Cur(T, r.value.next).kind)
    decreases |T| - i, 3
  {
    var op := Cur(T, i);
    if IsAdditiveOp(op.kind) then
      var right :- ParseMultiplicative(T, Adv(T, i));
      AdditiveTail(T, right.next, BinOp(left, op, right.node))
    else Ok(Parsed(left, i))
  }

  function ParseAdditive(T: seq<Token>, i: nat): (r: Outcome<Expr>)
    requires 1 <= i <= |T|
    ensures r.Ok? ==> i <= r.value.next <= |T| && StartsOperand(Cur(T, i).kind)
    decreases |T| - i, 4
  {
    var left :- ParseMultiplicative(T, i);
    AdditiveTail(T, left.next, left.node)
  }

  // ---------------------------------------------------------------------
  // Boolean expressions
  // ---------------------------------------------------------------------

  /**
   * The relational operators, tested by kind name: the name tested for
   * `>=` is "OP_GRTEQ", which no kind carries.
   */
  predicate IsRelationalOp(k: Kind) {
    k == OpGrt || k == OpLst || KindName(k) == "OP_GRTEQ" || k == OpLstEq
  }

  /** At most one relational operator between two additive expressions. */
  function ParseRelational(T: seq<Token>, i: nat): (r: Outcome<Expr>)
    requires 1 <= i <= |T|
    ensures r.Ok? ==> i <= r.value.next <= |T| && StartsOperand(Cur(T, i).kind)
    decreases |T| - i, 5
  {
    var left :- ParseAdditive(T, i);
    var op := Cur(T, left.next);
    if IsRelationalOp(op.kind) then
      var right :- ParseAdditive(T, Adv(T, left.next));
      Ok(Parsed(BinOp(left.node, op, right.node), right.next))
    else Ok(left)
  }

  predicate IsEqualityOp(k: Kind) { k == OpEqt || k == OpNeqt }

  function EqualityTail(T: seq<Token>, i: nat, left: Expr): (r: Outcome<Expr>)
    requires 1 <= i <= |T|
    ensures r.Ok? ==> i <= r.value.next <= |T| && !IsEqualityOp(Cur(T, r.value.next).kind)
    decreases |T| - i, 6
  {
    var op := Cur(T, i);
    if IsEqualityOp(op.kind) then
      var right :- ParseRelational(T, Adv(T, i));
      EqualityTail(T, right.next, BinOp(left, op, right.node))
    else Ok(Parsed(left, i))
  }

  function ParseEquality(T: seq<Token>, i: nat): (r: Outcome<Expr>)
    requires 1 <= i <= |T|
    ensures r.Ok? ==> i <= r.value.next <= |T| && StartsOperand(Cur(T, i).kind)
    decreases |T| - i, 7
  {
    var left :- ParseRelational(T, i);
    EqualityTail(T, left.next, left.node)
  }

  function LogicalAndTail(T: seq<Token>, i: nat, left: Expr): (r: Outcome<Expr>)
    requires 1 <= i <= |T|
    ensures r.Ok? ==> i <= r.value.next <= |T| && Cur(T, r.value.next).kind != OpLogAnd
    decreases |T| - i, 8
  {
    var op := Cur(T, i);
    if op.kind == OpLogAnd then
      var right :- ParseEquality(T, Adv(T, i));
      LogicalAndTail(T, right.next, BinOp(left, op, right.node))
    else Ok(Parsed(left, i))
  }

  function ParseLogicalAnd(T: seq<Token>, i: nat): (r: Outcome<Expr>)
    requires 1 <= i <= |T|
    ensures r.Ok? ==> i <= r.value.next <= |T| && StartsOperand(Cur(T, i).kind)
    decreases |T| - i, 9
  {
    var left :- ParseEquality(T, i);
    LogicalAndTail(T, left.next, left.node)
  }

  function LogicalOrTail(T: seq<Token>, i: nat, left: Expr): (r: Outcome<Expr>)
    requires 1 <= i <= |T|
    ensures r.Ok? ==> i <= r.value.next <= |T| && Cur(T, r.value.next).kind != OpLogOr
    decreases |T| - i, 10
  {
    var op := Cur(T, i);
    if op.kind == OpLogOr then
      var right :- ParseLogicalAnd(T, Adv(T, i));
      LogicalOrTail(T, right.next, BinOp(left, op, right.node))
    else Ok(Parsed(left, i))
  }

  /** A condition: the top of the ladder. */
  function ParseLogicalOr(T: seq<Token>, i: nat): (r: Outcome<Expr>)
    requires 1 <= i <= |T|
    ensures r.Ok? ==> i <= r.value.next <= |T| && StartsOperand(Cur(T, i).kind)
    decreases |T| - i, 11
  {
    var left :- ParseLogicalAnd(T, i);
    LogicalOrTail(T, left.next, left.node)
  }

  // ---------------------------------------------------------------------
  // Macro keywords, Scan() and literals
  // ---------------------------------------------------------------------

  /** The kinds a macro operand may have. */
  predicate IsOperand(k: Kind) { k == LitInt || k == LitFlt || k == Identifier }

  /** The text of an operand at the cursor, consumed. */
  function Operand(T: seq<Token>, i: nat): Result<Parsed<string>, ParseError>
    requires 1 <= i <= |T|
  {
    if IsOperand(Cur(T, i).kind) then Ok(Parsed(Cur(T, i).value, Adv(T, i))) else Err(SyntaxError)
  }

  /** `name ( a , b )`, expanded to `a op b`. */
  function ParseTwoParam(T: seq<Token>, i: nat, op: MacroOp): (r: Outcome<Expr>)
    requires 1 <= i <= |T|
    ensures r.Ok? ==> i < r.value.next <= |T|
  {
    var a :- Expect(T, Adv(T, i), DelLParen);
    var var1 :- Operand(T, a);
    SecondParam(T, var1.next, var1.node, op)
  }

  /** The `, b )` of a two-operand macro whose first operand is `first`. */
  function SecondParam(T: seq<Token>, j: nat, first: string, op: MacroOp): (r: Outcome<Expr>)
    requires 1 <= j <= |T|
    ensures r.Ok? ==> j < r.value.next <= |T|
  {
    var b :- Expect(T, j, DelComma);
    var var2 :- Operand(T, b);
    var c :- Expect(T, var2.next, DelRParen);
    Ok(Parsed(EcKeyword(first, op, var2.node), c))
  }

  /** `name ( a )`, expanded to `a op constant`. */
  function ParseOneParam(T: seq<Token>, i: nat, op: MacroOp, constant: string): (r: Outcome<Expr>)
    requires 1 <= i <= |T|
    ensures r.Ok? ==> i < r.value.next <= |T|
  {
    var a :- Expect(T, Adv(T, i), DelLParen);
    var var1 :- Operand(T, a);
    var c :- Expect(T, var1.next, DelRParen);
    Ok(Parsed(EcKeyword(var1.node, op, constant), c))
  }

  /** A macro keyword, looked up by the text of the current token. */
  function ParseMacro(T: seq<Token>, i: nat): (r: Outcome<Expr>)
    requires 1 <= i <= |T|
    ensures r.Ok? ==> i < r.value.next <= |T|
  {
    match MacroShape(Cur(T, i).value)
    case None => Err(SyntaxError)
    case Some(TwoParam(op, sqrt)) =>
      var e :- ParseTwoParam(T, i, op);
      if sqrt then Ok(Parsed(SquareRoot(e.node), e.next)) else Ok(e)
    case Some(OneParam(op, constant)) => ParseOneParam(T, i, op, constant)
  }

  /** `Scan ( )`: the cursor is left on the `)`. */
  function ParseInput(T: seq<Token>, i: nat): (r: Outcome<Expr>)
    requires 1 <= i <= |T|
    ensures r.Ok? ==> i <= r.value.next <= |T| && Cur(T, r.value.next).kind == DelRParen
  {
    var a :- Expect(T, Adv(T, i), DelLParen);
    if Cur(T, a).kind == DelRParen then Ok(Parsed(ScanCall, a)) else Err(SyntaxError)
  }

  /**
   * An initialiser or output value of the expected data type `dt`. The
   * tests group as `(kind and type) or type`, so type `bool` takes any
   * token that reaches them as a literal.
   */
  function ParseLiteral(T: seq<Token>, i: nat, dt: string): (r: Outcome<Expr>)
    requires 1 <= i <= |T|
    ensures r.Ok? ==> i <= r.value.next <= |T|
    decreases |T| - i, 12
  {
    var t := Cur(T, i);
    if t.kind == Identifier && dt !in ["string", "bool", "boolean", "char", "character"] then
      ParseAdditive(T, i)
    else if t.kind == ReservedWord && t.value == "Scan" then
      var s :- ParseInput(T, i);
      Ok(Parsed(s.node, Adv(T, s.next)))
    else if t.kind == Keyword then ParseMacro(T, i)
    else if t.kind == DelLParen then ParseAdditive(T, i)
    else if (t.kind == LitInt && dt == "int") || dt == "integer" then ParseAdditive(T, i)
    else if t.kind == LitFlt && dt == "float" then ParseAdditive(T, i)
    else if (t.kind == LitChar && dt == "char") || dt == "character" then Ok(Parsed(Literal(t.value), Adv(T, i)))
    else if t.kind == LitStr && dt == "string" then Ok(Parsed(Literal(t.value), Adv(T, i)))
    else if (t.kind == LitBoolTrue && dt == "boolean") || dt == "bool" then Ok(Parsed(Literal(t.value), Adv(T, i)))
    else if (t.kind == LitBoolFalse && dt == "boolean") || dt == "bool" then Ok(Parsed(Literal(t.value), Adv(T, i)))
    else Err(SyntaxError)
  }

  // ---------------------------------------------------------------------
  // Declarations
  // ---------------------------------------------------------------------

  function ParseIdentifier(T: seq<Token>, i: nat): (r: Outcome<Expr>)
    requires 1 <= i <= |T|
    ensures r.Ok? ==> r.value.next == Adv(T, i) && Cur(T, i).kind == Identifier
  {
    if Cur(T, i).kind == Identifier then Ok(Parsed(Ident(Cur(T, i).value), Adv(T, i))) else Err(SyntaxError)
  }

  /**
   * The optional initialiser of one declared name: numeric types take any
   * assignment operator or none, textual types exactly `=`.
   */
  function ParseInitialization(T: seq<Token>, i: nat, dt: string): (r: Outcome<Option<Expr>>)
    requires 1 <= i <= |T|
    ensures r.Ok? ==> i <= r.value.next <= |T|
    decreases |T| - i, 13
  {
    if dt in ["int", "float", "integer"] then
      if Cur(T, i).kind in TokenAssOps then
        var e :- ParseLiteral(T, Adv(T, i), dt);
        Ok(Parsed(Some(e.node), e.next))
      else Ok(Parsed(None, i))
    else if dt in ["string", "char", "bool", "boolean", "character"] then
      if Cur(T, i).kind != OpAss then Err(SyntaxError)
      else
        var e :- ParseLiteral(T, Adv(T, i), dt);
        Ok(Parsed(Some(e.node), e.next))
    else Err(SyntaxError)
  }

  /** The loop over `, name init` after the first binding; `acc` holds the bindings so far. */
  function VariableListTail(T: seq<Token>, i: nat, dt: string, acc: seq<Binding>): (r: Outcome<seq<Binding>>)
    requires 1 <= i <= |T|
    ensures r.Ok? ==> i <= r.value.next <= |T|
    decreases |T| - i, 14
  {
    if Cur(T, i).kind == DelComma then
      var id :- ParseIdentifier(T, Adv(T, i));
      var init :- ParseInitialization(T, id.next, dt);
      VariableListTail(T, init.next, dt, acc + [Binding(id.node, init.node)])
    else Ok(Parsed(acc, i))
  }

  /** `name init (, name init)*`, the first name followed by `=`, `,` or `;`. */
  function ParseVariableList(T: seq<Token>, i: nat, dt: string): (r: Outcome<seq<Binding>>)
    requires 1 <= i <= |T|
    ensures r.Ok? ==> i <= r.value.next <= |T|
    decreases |T| - i, 15
  {
    var id :- ParseIdentifier(T, i);
    var k := Cur(T, id.next).kind;
    if k != OpAss && k != DelComma && k != DelSemicolon then Err(SyntaxError)
    else
      var init :- ParseInitialization(T, id.next, dt);
      VariableListTail(T, init.next, dt, [Binding(id.node, init.node)])
  }

  /** A data type and its variable list; the text of the data-type token is the expected type. */
  function ParseDeclaration(T: seq<Token>, i: nat): (r: Outcome<Stmt>)
    requires 1 <= i <= |T|
    ensures r.Ok? ==> i < r.value.next <= |T| && r.value.node.Declaration?
    decreases |T| - i, 16
  {
    if i < |T| && Cur(T, i).kind in TokenDataTypes then
      var dt := Cur(T, i).value;
      var list :- ParseVariableList(T, i + 1, dt);
      Ok(Parsed(Declaration(dt, list.node), list.next))
    else Err(SyntaxError)
  }

  // ---------------------------------------------------------------------
  // Statements led by a name, output and return
  // ---------------------------------------------------------------------

  /**
   * A statement led by a name: the operator after the name and the token
   * after that operator decide which.
   */
  function ParseAssignmentUnary(T: seq<Token>, i: nat): (r: Outcome<Stmt>)
    requires 1 <= i <= |T|
    ensures r.Ok? ==> i < r.value.next <= |T|
    decreases |T| - i, 13
  {
    var id :- ParseIdentifier(T, i);
    match Peek(T, id.next)
    case None => Err(ParseCrash)
    case Some(after) => ParseAfterName(T, id.next, id.node, after)
  }

  /** The statement after its leading name `target`: the cursor is on the operator, `after` follows it. */
  function ParseAfterName(T: seq<Token>, j: nat, target: Expr, after: Token): (r: Outcome<Stmt>)
    requires 1 <= j <= |T|
    ensures r.Ok? ==> j <= r.value.next <= |T|
  {
    var op := Cur(T, j);
    if after.value in Keywords then
      var m :- ParseMacro(T, Adv(T, j));
      Ok(Parsed(MacroStmt(m.node), m.next))
    else if op.kind == OpAss && after.value == "Scan" then
      var s :- ParseInput(T, Adv(T, j));
      Ok(Parsed(Input(target), Adv(T, s.next)))
    else if op.kind in TokenAssOps && after.kind != LitStr && after.kind != LitChar then
      var e :- ParseAdditive(T, Adv(T, j));
      Ok(Parsed(Assignment(target, op.value, e.node), e.next))
    else if op.kind == OpAss && after.kind == LitStr then
      var e :- ParseLiteral(T, Adv(T, j), "string");
      Ok(Parsed(Assignment(target, op.value, e.node), e.next))
    else if op.kind == OpAss && after.kind == LitChar then
      var e :- ParseLiteral(T, Adv(T, j), "char");
      Ok(Parsed(Assignment(target, op.value, e.node), e.next))
    else if op.kind in TokenUnrOps then
      Ok(Parsed(Unary(target, op.value), Adv(T, j)))
    else Err(SyntaxError)
  }

  /** The kinds a printed or returned value may start with. */
  predicate IsValueStart(k: Kind) {
    k == LitInt || k == Keyword || k == LitFlt || k == LitStr || k == LitChar
    || k == LitBoolTrue || k == LitBoolFalse || k == Identifier
  }

  /** A printed or returned value, parsed by the kind of its first token. */
  function ParseValue(T: seq<Token>, i: nat): (r: Outcome<Expr>)
    requires 1 <= i <= |T| && IsValueStart(Cur(T, i).kind)
    ensures r.Ok? ==> i <= r.value.next <= |T|
    decreases |T| - i, 13
  {
    var k := Cur(T, i).kind;
    if k == LitInt then ParseLiteral(T, i, "int")
    else if k == Keyword then ParseMacro(T, i)
    else if k == LitFlt then ParseLiteral(T, i, "float")
    else if k == LitStr then ParseLiteral(T, i, "string")
    else if k == LitChar then ParseLiteral(T, i, "char")
    else if k == LitBoolTrue || k == LitBoolFalse then ParseLiteral(T, i, "bool")
    else ParseIdentifier(T, i)
  }

  /** The loop over the values of an output statement, joined by `+`, up to `)`. */
  function OutputValues(T: seq<Token>, i: nat, values: seq<Expr>): (r: Outcome<seq<Expr>>)
    requires 1 <= i <= |T|
    ensures r.Ok? ==> i <= r.value.next <= |T| && Cur(T, r.value.next).kind == DelRParen
    decreases |T| - i, 14
  {
    if Cur(T, i).kind == DelRParen then Ok(Parsed(values, i))
    else if !IsValueStart(Cur(T, i).kind) then Err(SyntaxError)
    else
      var v :- ParseValue(T, i);
      var k := Cur(T, v.next).kind;
      if k == DelRParen then Ok(Parsed(values + [v.node], v.next))
      else if k == OpAdd then OutputValues(T, Adv(T, v.next), values + [v.node])
      else Err(SyntaxError)
  }

  /** `Print ( values )` or `PrintLine ( values )`. */
  function ParseOutput(T: seq<Token>, i: nat): (r: Outcome<Stmt>)
    requires 1 <= i <= |T| && Cur(T, i).kind == ReservedWord
    ensures r.Ok? ==> i < r.value.next <= |T| && r.value.node.Output?
    decreases |T| - i, 15
  {
    var a :- Expect(T, Adv(T, i), DelLParen);
    var values :- OutputValues(T, a, []);
    Ok(Parsed(Output(Cur(T, i).value + "()", values.node), Adv(T, values.next)))
  }

  /** `return value`; any other token leaves the value unbound. */
  function ParseReturn(T: seq<Token>, i: nat): (r: Outcome<Stmt>)
    requires 1 <= i <= |T| && Cur(T, i).kind == ReservedWord
    ensures r.Ok? ==> i < r.value.next <= |T| && r.value.node.Return?
    ensures !IsValueStart(Cur(T, Adv(T, i)).kind) ==> r == Err(ParseCrash)
    decreases |T| - i, 14
  {
    var a := Adv(T, i);
    if IsValueStart(Cur(T, a).kind) then
      var v :- ParseValue(T, a);
      Ok(Parsed(Return(v.node), v.next))
    else Err(ParseCrash)
  }

  // ---------------------------------------------------------------------
  // Loops, conditionals, bodies and the program
  // ---------------------------------------------------------------------

  /** The first clause of a `for` loop. */
  function ParseForInit(T: seq<Token>, i: nat): (r: Outcome<ForInit>)
    requires 1 <= i <= |T|
    ensures r.Ok? ==> i <= r.value.next <= |T|
    decreases |T| - i, 17
  {
    var k := Cur(T, i).kind;
    if KindName(k) == "DT_INT" || KindName(k) == "DT_FLOAT" then
      var d :- ParseDeclaration(T, i);
      Ok(Parsed(InitDeclaration(d.node.dataType, d.node.bindings), d.next))
    else if k == Identifier then
      var list :- ParseVariableList(T, i, "int");
      Ok(Parsed(InitList(list.node), list.next))
    else Err(SyntaxError)
  }

  /**
   * The third clause of a `for` loop: a name followed by `++` or `--`.
   * None stands for the step left unbound when the name is followed by
   * anything else.
   */
  function ParseForStep(T: seq<Token>, i: nat): (r: Outcome<Option<Stmt>>)
    requires 1 <= i <= |T|
    ensures r.Ok? ==> i <= r.value.next <= |T|
    ensures r.Ok? && r.value.node.None? ==> r.value.next == i && Cur(T, i).kind == Identifier
    decreases |T| - i, 14
  {
    if Cur(T, i).kind != Identifier then Err(SyntaxError)
    else match Peek(T, i)
      case None => Err(ParseCrash)
      case Some(after) =>
        if after.kind in TokenUnrOps then
          var s :- ParseAssignmentUnary(T, i);
          Ok(Parsed(Some(s.node), s.next))
        else Ok(Parsed(None, i))
  }

  /** `( condition )`, the parenthesised condition of a loop or conditional. */
  function ParseCondition(T: seq<Token>, i: nat): (r: Outcome<Expr>)
    requires 1 <= i <= |T|
    ensures r.Ok? ==> i < r.value.next <= |T| && Cur(T, i).kind == DelLParen
  {
    var a :- Expect(T, i, DelLParen);
    var cond :- ParseLogicalOr(T, a);
    var b :- Expect(T, cond.next, DelRParen);
    Ok(Parsed(cond.node, b))
  }

  /**
   * `{ body }`. Only a `{` leads on to a body, so the measure is lower at
   * any other token: a caller may stand on the same last token.
   */
  function ParseBlock(T: seq<Token>, i: nat): (r: Outcome<Body>)
    requires 1 <= i <= |T|
    ensures r.Ok? ==> i < r.value.next <= |T| && Cur(T, i).kind == DelLBrace
    decreases |T| - i, if Cur(T, i).kind == DelLBrace then 22 else 0
  {
    var a :- Expect(T, i, DelLBrace);
    var body :- ParseBody(T, a);
    // a body ends only at a `}`, so matching it cannot fail
    Ok(Parsed(body.node, Adv(T, body.next)))
  }

  /** `while ( condition ) { body }` */
  function ParseWhile(T: seq<Token>, i: nat): (r: Outcome<Stmt>)
    requires 1 <= i <= |T| && Cur(T, i).kind == ReservedWord
    ensures r.Ok? ==> i < r.value.next <= |T| && r.value.node.Loop? && r.value.node.loopType == "while_loop"
    decreases |T| - i, 18
  {
    var cond :- ParseCondition(T, Adv(T, i));
    var body :- ParseBlock(T, cond.next);
    Ok(Parsed(Loop("while_loop", cond.node, body.node), body.next))
  }

  /** `do { body } while ( condition )`; the `while` is matched by its text only. */
  function ParseDoWhile(T: seq<Token>, i: nat): (r: Outcome<Stmt>)
    requires 1 <= i <= |T| && Cur(T, i).kind == ReservedWord
    ensures r.Ok? ==> i < r.value.next <= |T| && r.value.node.Loop? && r.value.node.loopType == "do_while_loop"
    decreases |T| - i, 18
  {
    var body :- ParseBlock(T, Adv(T, i));
    var w :- ExpectValue(T, body.next, "while");
    var cond :- ParseCondition(T, w);
    Ok(Parsed(Loop("do_while_loop", cond.node, body.node), cond.next))
  }

  /** `( init ; condition ; step )`, the head of a `for` loop. */
  function ParseForHeader(T: seq<Token>, i: nat): (r: Outcome<ForHeader>)
    requires 1 <= i <= |T|
    ensures r.Ok? ==> i < r.value.next <= |T|
  {
    var a :- Expect(T, i, DelLParen);
    var init :- ParseForInit(T, a);
    var b :- Expect(T, init.next, DelSemicolon);
    var rest :- ParseForRest(T, b);
    Ok(Parsed(ForHeader(init.node, rest.node.0, rest.node.1), rest.next))
  }

  /** `condition ; step )`, the head of a `for` loop after its first `;`. */
  function ParseForRest(T: seq<Token>, i: nat): (r: Outcome<(Expr, Option<Stmt>)>)
    requires 1 <= i <= |T|
    ensures r.Ok? ==> i <= r.value.next <= |T|
  {
    var cond :- ParseLogicalOr(T, i);
    var c :- Expect(T, cond.next, DelSemicolon);
    ForStepClose(T, c, cond.node)
  }

  /** `step )` of a `for` head whose condition is `cond`. */
  function ForStepClose(T: seq<Token>, i: nat, cond: Expr): (r: Outcome<(Expr, Option<Stmt>)>)
    requires 1 <= i <= |T|
    ensures r.Ok? ==> i <= r.value.next <= |T| && r.value.node.0 == cond
  {
    var step :- ParseForStep(T, i);
    var d :- Expect(T, step.next, DelRParen);
    Ok(Parsed((cond, step.node), d))
  }

  /** `for ( init ; condition ; step ) { body }` */
  function ParseFor(T: seq<Token>, i: nat): (r: Outcome<Stmt>)
    requires 1 <= i <= |T| && Cur(T, i).kind == ReservedWord
    ensures r.Ok? ==> i < r.value.next <= |T| && r.value.node.For?
    decreases |T| - i, 18
  {
    var h :- ParseForHeader(T, Adv(T, i));
    var body :- ParseBlock(T, h.next);
    match h.node.step
    // an unbound step would be read here, but the `)` test of the header
    // already rejects it: this case is never reached (ParserProps.ForStepIsBound)
    case None => Err(ParseCrash)
    case Some(s) => Ok(Parsed(For(h.node.init, h.node.condition, s, body.node), body.next))
  }

  /** The loop over `elseif ( condition ) { body }` and `else { body }` after an `if` body. */
  function ParseAlternatives(T: seq<Token>, i: nat, alt: Alternatives): (r: Outcome<Alternatives>)
    requires 1 <= i <= |T|
    ensures r.Ok? ==> i <= r.value.next <= |T|
    decreases |T| - i, 18
  {
    var t := Cur(T, i);
    if t.kind == ReservedWord && t.value == "elseif" then
      var cond :- ParseCondition(T, Adv(T, i));
      var body :- ParseBlock(T, cond.next);
      ParseAlternatives(T, body.next, alt.(conditions := alt.conditions + [cond.node], bodies := alt.bodies + [body.node]))
    else if t.kind == ReservedWord && t.value == "else" then
      var body :- ParseBlock(T, Adv(T, i));
      ParseAlternatives(T, body.next, alt.(elseBody := Some(body.node)))
    else Ok(Parsed(alt, i))
  }

  /** `if ( condition ) { body }` and its alternatives. */
  function ParseIf(T: seq<Token>, i: nat): (r: Outcome<Stmt>)
    requires 1 <= i <= |T| && Cur(T, i).kind == ReservedWord
    ensures r.Ok? ==> i < r.value.next <= |T| && r.value.node.Conditional?
    decreases |T| - i, 18
  {
    var cond :- ParseCondition(T, Adv(T, i));
    var body :- ParseBlock(T, cond.next);
    var alt :- ParseAlternatives(T, body.next, Alternatives([], [], None));
    Ok(Parsed(Conditional(cond.node, body.node, alt.node.conditions, alt.node.bodies, alt.node.elseBody), alt.next))
  }

  /** A statement that must be followed by `;`. */
  function Terminated(T: seq<Token>, r: Outcome<Stmt>): (t: Outcome<Stmt>)
    requires r.Ok? ==> 1 <= r.value.next <= |T|
    ensures t.Ok? ==> r.Ok? && r.value.next <= t.value.next <= |T| && t.value.node == r.value.node
  {
    var s :- r;
    var n :- Expect(T, s.next, DelSemicolon);
    Ok(Parsed(s.node, n))
  }

  /** One statement, chosen by the current token. */
  function ParseStatement(T: seq<Token>, i: nat): (r: Outcome<Stmt>)
    requires 1 <= i <= |T|
    ensures r.Ok? ==> i < r.value.next <= |T|
    decreases |T| - i, 19
  {
    var t := Cur(T, i);
    if t.kind in TokenDataTypes then Terminated(T, ParseDeclaration(T, i))
    else if t.kind == Identifier then Terminated(T, ParseAssignmentUnary(T, i))
    else if t.kind == ReservedWord && (t.value == "Print" || t.value == "PrintLine") then
      Terminated(T, ParseOutput(T, i))
    else if t.kind == ReservedWord && t.value == "return" then Terminated(T, ParseReturn(T, i))
    else if t.kind == ReservedWord && t.value == "do" then Terminated(T, ParseDoWhile(T, i))
    else if t.kind == ReservedWord && t.value == "while" then ParseWhile(T, i)
    else if t.kind == ReservedWord && t.value == "for" then ParseFor(T, i)
    else if t.kind == ReservedWord && t.value == "if" then ParseIf(T, i)
    else Err(SyntaxError)
  }

  /** The loop of a body: statements in order up to the closing `}`, which is not consumed. */
  function BodyStatements(T: seq<Token>, i: nat, acc: seq<Stmt>): (r: Outcome<seq<Stmt>>)
    requires 1 <= i <= |T|
    ensures r.Ok? ==> i <= r.value.next <= |T| && Cur(T, r.value.next).kind == DelRBrace
    decreases |T| - i, 20
  {
    if Cur(T, i).kind == DelRBrace then Ok(Parsed(acc, i))
    else
      var s :- ParseStatement(T, i);
      BodyStatements(T, s.next, acc + [s.node])
  }

  function ParseBody(T: seq<Token>, i: nat): (r: Outcome<Body>)
    requires 1 <= i <= |T|
    ensures r.Ok? ==> i <= r.value.next <= |T| && Cur(T, r.value.next).kind == DelRBrace
    decreases |T| - i, 21
  {
    var list :- BodyStatements(T, i, []);
    Ok(Parsed(Body(list.node), list.next))
  }

  /** `Main { body }`; tokens after the closing `}` are ignored. */
  function ParseProgram(T: seq<Token>): Result<Program, ParseError> {
    if |T| == 0 then Err(SyntaxError)
    else
      var m :- ExpectValue(T, 1, "Main");
      var body :- ParseBlock(T, m);
      Ok(Program(body.node))
  }
}
