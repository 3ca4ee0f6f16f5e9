/**
 * The parser of ec_parser.py: an object holding the token list and a
 * cursor, whose methods consume tokens and build the syntax tree. Each
 * method is proved to do what the function of the same routine in
 * module ParseSpec describes.
 */
module EcParser {
  import opened Wrappers
  import opened Constants
  import opened Tokens
  import opened Ast
  import S = ParseSpec

  class Parser {
    const tokens: seq<Token>
    var currentToken: Option<Token>
    var tokenIndex: nat

    /** The cursor stays within the list and the current token is the last one consumed. */
    predicate Valid()
      reads this
    {
      tokenIndex <= |tokens|
      && currentToken == (if tokenIndex == 0 then None else Some(S.Cur(tokens, tokenIndex)))
    }

    /** Valid, with a current token. */
    predicate Ready()
      reads this
    {
      Valid() && 1 <= tokenIndex
    }

    /** The method did what `spec` describes: the same node and cursor, or the same error. */
    predicate Agrees<N(==)>(r: Result<N, S.ParseError>, spec: S.Outcome<N>)
      reads this
    {
      match spec
      case Ok(p) => r == Ok(p.node) && tokenIndex == p.next
      case Err(e) => r == Err(e)
    }

    /** The same for a step that only moves the cursor. */
    predicate Stepped(r: Result<(), S.ParseError>, spec: Result<nat, S.ParseError>)
      reads this
    {
      match spec
      case Ok(n) => r.Ok? && tokenIndex == n
      case Err(e) => r == Err(e)
    }

    constructor (tokens: seq<Token>)
      ensures this.tokens == tokens && Valid() && tokenIndex == 0
    {
      this.tokens := tokens;
      currentToken := None;
      tokenIndex := 0;
    }

    // -------------------------------------------------------------------
    // The cursor
    // -------------------------------------------------------------------

    /** Move to the next token while tokens remain; at the end nothing changes. */
    method ConsumeToken()
      requires Valid()
      modifies this
      ensures Valid() && tokenIndex == S.Adv(tokens, old(tokenIndex))
      ensures old(tokenIndex) == |tokens| ==> currentToken == old(currentToken)
    {
      if tokenIndex < |tokens| {
        currentToken := Some(tokens[tokenIndex]);
        tokenIndex := tokenIndex + 1;
      }
    }

    /** The token after the current one, or None at the end. */
    method PeekNextToken() returns (t: Option<Token>)
      requires Valid()
      ensures t == S.Peek(tokens, tokenIndex)
      ensures t.Some? <==> tokenIndex < |tokens|
    {
      if tokenIndex < |tokens| {
        return Some(tokens[tokenIndex]);
      }
      return None;
    }

    /**
     * The token two places after the current one. With exactly one token
     * left the index is out of range, which is a crash.
     */
    method PeekTokenAfterNext() returns (r: Result<Option<Token>, S.ParseError>)
      requires Valid()
      ensures tokenIndex + 1 < |tokens| ==> r == Ok(Some(tokens[tokenIndex + 1]))
      ensures tokenIndex + 1 == |tokens| ==> r == Err(S.ParseCrash)
      ensures tokenIndex == |tokens| ==> r == Ok(None)
    {
      if tokenIndex < |tokens| {
        if tokenIndex + 1 < |tokens| {
          return Ok(Some(tokens[tokenIndex + 1]));
        }
        return Err(S.ParseCrash);
      }
      return Ok(None);
    }

    /** Consume the current token if it has kind `k`. */
    method MatchType(k: Kind) returns (r: Result<(), S.ParseError>)
      requires Ready()
      modifies this
      ensures Ready() && Stepped(r, S.Expect(tokens, old(tokenIndex), k))
    {
      if currentToken.value.kind == k {
        ConsumeToken();
        return Ok(());
      }
      return Err(S.SyntaxError);
    }

    /** Consume the current token if its text is `v`; its kind is not looked at. */
    method MatchResword(v: string) returns (r: Result<(), S.ParseError>)
      requires Ready()
      modifies this
      ensures Ready() && Stepped(r, S.ExpectValue(tokens, old(tokenIndex), v))
    {
      if currentToken.value.value == v {
        ConsumeToken();
        return Ok(());
      }
      return Err(S.SyntaxError);
    }

    method CheckSemicolon() returns (r: Result<(), S.ParseError>)
      requires Ready()
      modifies this
      ensures Ready() && Stepped(r, S.Expect(tokens, old(tokenIndex), DelSemicolon))
    {
      r := MatchType(DelSemicolon);
    }

    // -------------------------------------------------------------------
    // Arithmetic expressions
    // -------------------------------------------------------------------

    method ParsePrimaryExpression() returns (r: Result<Expr, S.ParseError>)
      requires Ready()
      modifies this
      ensures Ready() && Agrees(r, S.ParsePrimary(tokens, old(tokenIndex)))
      decreases |tokens| - tokenIndex, 0
    {
      var t := currentToken.value;
      if t.kind == LitInt {
        ConsumeToken();
        return Ok(Number(t.value, false));
      } else if t.kind == LitFlt {
        ConsumeToken();
        return Ok(Number(t.value, true));
      } else if t.kind == DelLParen {
        if tokenIndex == |tokens| {
          // consuming does not move, so this `(` would be parsed again and again
          return Err(S.ParseCrash);
        }
        ConsumeToken();
        var e :- ParseAdditiveExpression();
        if currentToken.value.kind == DelRParen {
          ConsumeToken();
          return Ok(e);
        }
        return Err(S.SyntaxError);
      } else if t.kind == Identifier {
        r := ParseIdentifier();
      } else {
        return Err(S.SyntaxError);
      }
    }

    method ParseMultiplicativeExpression() returns (r: Result<Expr, S.ParseError>)
      requires Ready()
      modifies this
      ensures Ready() && Agrees(r, S.ParseMultiplicative(tokens, old(tokenIndex)))
      decreases |tokens| - tokenIndex, 2
    {
      ghost var i0 := tokenIndex;
      var left :- ParsePrimaryExpression();
      while S.IsMultiplicativeOp(currentToken.value.kind)
        invariant Ready() && i0 <= tokenIndex
        invariant S.ParseMultiplicative(tokens, i0) == S.MultiplicativeTail(tokens, tokenIndex, left)
        decreases |tokens| - tokenIndex
      {
        var op := currentToken.value;
        ConsumeToken();
        var right :- ParsePrimaryExpression();
        left := BinOp(left, op, right);
      }
      return Ok(left);
    }

    method ParseAdditiveExpression() returns (r: Result<Expr, S.ParseError>)
      requires Ready()
      modifies this
      ensures Ready() && Agrees(r, S.ParseAdditive(tokens, old(tokenIndex)))
      decreases |tokens| - tokenIndex, 4
    {
      ghost var i0 := tokenIndex;
      var left :- ParseMultiplicativeExpression();
      while S.IsAdditiveOp(currentToken.value.kind)
        invariant Ready() && i0 <= tokenIndex
        invariant S.ParseAdditive(tokens, i0) == S.AdditiveTail(tokens, tokenIndex, left)
        decreases |tokens| - tokenIndex
      {
        var op := currentToken.value;
        ConsumeToken();
        var right :- ParseMultiplicativeExpression();
        left := BinOp(left, op, right);
      }
      return Ok(left);
    }

    method ParseIdentifier() returns (r: Result<Expr, S.ParseError>)
      requires Ready()
      modifies this
      ensures Ready() && Agrees(r, S.ParseIdentifier(tokens, old(tokenIndex)))
    {
      if currentToken.value.kind == Identifier {
        var name := currentToken.value.value;
        ConsumeToken();
        return Ok(Ident(name));
      }
      return Err(S.SyntaxError);
    }
  
    // -------------------------------------------------------------------
    // Boolean expressions
    // -------------------------------------------------------------------

    method ParseRelationalExpression() returns (r: Result<Expr, S.ParseError>)
      requires Ready()
      modifies this
      ensures Ready() && Agrees(r, S.ParseRelational(tokens, old(tokenIndex)))
      decreases |tokens| - tokenIndex, 5
    {
      var left :- ParseAdditiveExpression();
      var op := currentToken.value;
      assert op == S.Cur(tokens, tokenIndex);
      if S.IsRelationalOp(op.kind) {
        ConsumeToken();
        var right :- ParseAdditiveExpression();
        return Ok(BinOp(left, op, right));
      }
      return Ok(left);
    }

    method ParseEqualityExpression() returns (r: Result<Expr, S.ParseError>)
      requires Ready()
      modifies this
      ensures Ready() && Agrees(r, S.ParseEquality(tokens, old(tokenIndex)))
      decreases |tokens| - tokenIndex, 7
    {
      ghost var i0 := tokenIndex;
      var left :- ParseRelationalExpression();
      while S.IsEqualityOp(currentToken.value.kind)
        invariant Ready() && i0 <= tokenIndex
        invariant S.ParseEquality(tokens, i0) == S.EqualityTail(tokens, tokenIndex, left)
        decreases |tokens| - tokenIndex
      {
        var op := currentToken.value;
        ConsumeToken();
        var right :- ParseRelationalExpression();
        left := BinOp(left, op, right);
      }
      return Ok(left);
    }

    method ParseLogicalAndExpression() returns (r: Result<Expr, S.ParseError>)
      requires Ready()
      modifies this
      ensures Ready() && Agrees(r, S.ParseLogicalAnd(tokens, old(tokenIndex)))
      decreases |tokens| - tokenIndex, 9
    {
      ghost var i0 := tokenIndex;
      var left :- ParseEqualityExpression();
      while currentToken.value.kind == OpLogAnd
        invariant Ready() && i0 <= tokenIndex
        invariant S.ParseLogicalAnd(tokens, i0) == S.LogicalAndTail(tokens, tokenIndex, left)
        decreases |tokens| - tokenIndex
      {
        var op := currentToken.value;
        ConsumeToken();
        var right :- ParseEqualityExpression();
        left := BinOp(left, op, right);
      }
      return Ok(left);
    }

    method ParseLogicalOrExpression() returns (r: Result<Expr, S.ParseError>)
      requires Ready()
      modifies this
      ensures Ready() && Agrees(r, S.ParseLogicalOr(tokens, old(tokenIndex)))
      decreases |tokens| - tokenIndex, 11
    {
      ghost var i0 := tokenIndex;
      var left :- ParseLogicalAndExpression();
      while currentToken.value.kind == OpLogOr
        invariant Ready() && i0 <= tokenIndex
        invariant S.ParseLogicalOr(tokens, i0) == S.LogicalOrTail(tokens, tokenIndex, left)
        decreases |tokens| - tokenIndex
      {
        var op := currentToken.value;
        ConsumeToken();
        var right :- ParseLogicalAndExpression();
        left := BinOp(left, op, right);
      }
      return Ok(left);
    }

    // -------------------------------------------------------------------
    // Macro keywords, Scan() and literals
    // -------------------------------------------------------------------

    /** `name ( a , b )`; the current token is the macro name. */
    method TwoParamKeyword(op: MacroOp) returns (r: Result<Expr, S.ParseError>)
      requires Ready()
      modifies this
      ensures Ready() && Agrees(r, S.ParseTwoParam(tokens, old(tokenIndex), op))
    {
      ConsumeToken();
      if currentToken.value.kind != DelLParen {
        return Err(S.SyntaxError);
      }
      ConsumeToken();
      if !S.IsOperand(currentToken.value.kind) {
        return Err(S.SyntaxError);
      }
      var var1 := currentToken.value.value;
      ConsumeToken();
      if currentToken.value.kind != DelComma {
        return Err(S.SyntaxError);
      }
      ConsumeToken();
      if !S.IsOperand(currentToken.value.kind) {
        return Err(S.SyntaxError);
      }
      var var2 := currentToken.value.value;
      ConsumeToken();
      if currentToken.value.kind != DelRParen {
        return Err(S.SyntaxError);
      }
      ConsumeToken();
      return Ok(EcKeyword(var1, op, var2));
    }

    /** `name ( a )`; the current token is the macro name. */
    method OneParamKeyword(op: MacroOp, constant: string) returns (r: Result<Expr, S.ParseError>)
      requires Ready()
      modifies this
      ensures Ready() && Agrees(r, S.ParseOneParam(tokens, old(tokenIndex), op, constant))
    {
      ConsumeToken();
      if currentToken.value.kind != DelLParen {
        return Err(S.SyntaxError);
      }
      ConsumeToken();
      if !S.IsOperand(currentToken.value.kind) {
        return Err(S.SyntaxError);
      }
      var var1 := currentToken.value.value;
      ConsumeToken();
      if currentToken.value.kind != DelRParen {
        return Err(S.SyntaxError);
      }
      ConsumeToken();
      return Ok(EcKeyword(var1, op, constant));
    }

    /** A macro keyword, expanded by the table of shapes. */
    method ParseEcKeywords() returns (r: Result<Expr, S.ParseError>)
      requires Ready()
      modifies this
      ensures Ready() && Agrees(r, S.ParseMacro(tokens, old(tokenIndex)))
    {
      match MacroShape(currentToken.value.value)
      case None =>
        return Err(S.SyntaxError);
      case Some(TwoParam(op, sqrt)) =>
        var e :- TwoParamKeyword(op);
        if sqrt {
          return Ok(SquareRoot(e));
        }
        return Ok(e);
      case Some(OneParam(op, constant)) =>
        r := OneParamKeyword(op, constant);
    }

    /** `Scan ( )`, leaving the `)` current. */
    method ParseInputStatement() returns (r: Result<Expr, S.ParseError>)
      requires Ready()
      modifies this
      ensures Ready() && Agrees(r, S.ParseInput(tokens, old(tokenIndex)))
    {
      ConsumeToken();
      if currentToken.value.kind == DelLParen {
        ConsumeToken();
        if currentToken.value.kind == DelRParen {
          return Ok(ScanCall);
        }
        return Err(S.SyntaxError);
      }
      return Err(S.SyntaxError);
    }

    method ParseLiteral(dt: string) returns (r: Result<Expr, S.ParseError>)
      requires Ready()
      modifies this
      ensures Ready() && Agrees(r, S.ParseLiteral(tokens, old(tokenIndex), dt))
      decreases |tokens| - tokenIndex, 12
    {
      var t := currentToken.value;
      if t.kind == Identifier && dt !in ["string", "bool", "boolean", "char", "character"] {
        r := ParseAdditiveExpression();
      } else if t.kind == ReservedWord && t.value == "Scan" {
        var input :- ParseInputStatement();
        ConsumeToken();
        return Ok(input);
      } else if t.kind == Keyword {
        r := ParseEcKeywords();
      } else if t.kind == DelLParen {
        r := ParseAdditiveExpression();
      } else if (t.kind == LitInt && dt == "int") || dt == "integer" {
        r := ParseAdditiveExpression();
      } else if t.kind == LitFlt && dt == "float" {
        r := ParseAdditiveExpression();
      } else if (t.kind == LitChar && dt == "char") || dt == "character" {
        ConsumeToken();
        return Ok(Literal(t.value));
      } else if t.kind == LitStr && dt == "string" {
        ConsumeToken();
        return Ok(Literal(t.value));
      } else if (t.kind == LitBoolTrue && dt == "boolean") || dt == "bool" {
        ConsumeToken();
        return Ok(Literal(t.value));
      } else if (t.kind == LitBoolFalse && dt == "boolean") || dt == "bool" {
        ConsumeToken();
        return Ok(Literal(t.value));
      } else {
        return Err(S.SyntaxError);
      }
    }

    // -------------------------------------------------------------------
    // Declarations
    // -------------------------------------------------------------------

    /** The optional initialiser of one declared name. */
    method ParseInitialization(dt: string) returns (r: Result<Option<Expr>, S.ParseError>)
      requires Ready()
      modifies this
      ensures Ready() && Agrees(r, S.ParseInitialization(tokens, old(tokenIndex), dt))
      decreases |tokens| - tokenIndex, 13
    {
      if dt in ["int", "float", "integer"] {
        if currentToken.value.kind in TokenAssOps {
          ConsumeToken();
          var e :- ParseLiteral(dt);
          return Ok(Some(e));
        }
        return Ok(None);
      } else if dt in ["string", "char", "bool", "boolean", "character"] {
        if currentToken.value.kind != OpAss {
          return Err(S.SyntaxError);
        }
        ConsumeToken();
        var e :- ParseLiteral(dt);
        return Ok(Some(e));
      }
      return Err(S.SyntaxError);
    }

    /** `name init (, name init)*` for the data type `dt`. */
    method ParseVariableList(dt: string) returns (r: Result<seq<Binding>, S.ParseError>)
      requires Ready()
      modifies this
      ensures Ready() && Agrees(r, S.ParseVariableList(tokens, old(tokenIndex), dt))
      decreases |tokens| - tokenIndex, 15
    {
      ghost var i0 := tokenIndex;
      if currentToken.value.kind != Identifier {
        return Err(S.SyntaxError);
      }
      var first := ParseIdentifier();
      var k := currentToken.value.kind;
      if k != OpAss && k != DelComma && k != DelSemicolon {
        return Err(S.SyntaxError);
      }
      var init :- ParseInitialization(dt);
      var list := [Binding(first.value, init)];
      while currentToken.value.kind == DelComma
        invariant Ready() && i0 < tokenIndex
        invariant S.ParseVariableList(tokens, i0, dt) == S.VariableListTail(tokens, tokenIndex, dt, list)
        decreases |tokens| - tokenIndex
      {
        var _ := MatchType(DelComma);
        var id :- ParseIdentifier();
        var next :- ParseInitialization(dt);
        list := list + [Binding(id, next)];
      }
      return Ok(list);
    }

    /** Consume a data-type token and return its text. */
    method IdentifyDataType() returns (r: Result<string, S.ParseError>)
      requires Ready()
      modifies this
      ensures Ready()
      ensures old(currentToken.value.kind) in TokenDataTypes ==> r == Ok(old(currentToken.value.value)) && tokenIndex == S.Adv(tokens, old(tokenIndex))
      ensures old(currentToken.value.kind) !in TokenDataTypes ==> r == Err(S.SyntaxError)
    {
      if currentToken.value.kind in TokenDataTypes {
        var dt := currentToken.value.value;
        ConsumeToken();
        return Ok(dt);
      }
      return Err(S.SyntaxError);
    }

    method ParseDeclarationStatement() returns (r: Result<Stmt, S.ParseError>)
      requires Ready()
      modifies this
      ensures Ready() && Agrees(r, S.ParseDeclaration(tokens, old(tokenIndex)))
      decreases |tokens| - tokenIndex, 16
    {
      if tokenIndex < |tokens| {
        var dt :- IdentifyDataType();
        var list :- ParseVariableList(dt);
        return Ok(Declaration(dt, list));
      }
      return Err(S.SyntaxError);
    }
  

    // -------------------------------------------------------------------
    // Statements led by a name, output and return
    // -------------------------------------------------------------------

    /**
     * A statement led by a name: a macro, `= Scan()`, an assignment or a
     * unary step, chosen by the operator and the token after it.
     */
    method ParseAssignmentUnaryStatement() returns (r: Result<Stmt, S.ParseError>)
      requires Ready()
      modifies this
      ensures Ready() && Agrees(r, S.ParseAssignmentUnary(tokens, old(tokenIndex)))
      decreases |tokens| - tokenIndex, 13
    {
      if currentToken.value.kind != Identifier {
        return Err(S.SyntaxError);
      }
      var id := ParseIdentifier();
      var next := PeekNextToken();
      if next.None? {
        // the attribute of a missing token is looked up
        return Err(S.ParseCrash);
      }
      r := ParseAfterName(id.value, next.value);
    }

    /** The rest of a statement led by the name `target`, with `after` the token after the operator. */
    method ParseAfterName(target: Expr, after: Token) returns (r: Result<Stmt, S.ParseError>)
      requires Ready()
      modifies this
      ensures Ready() && Agrees(r, S.ParseAfterName(tokens, old(tokenIndex), target, after))
    {
      var op := currentToken.value;
      if after.value in Keywords {
        ConsumeToken();
        var m :- ParseEcKeywords();
        return Ok(MacroStmt(m));
      } else if op.kind == OpAss && after.value == "Scan" {
        ConsumeToken();
        var _ :- ParseInputStatement();
        ConsumeToken();
        return Ok(Input(target));
      } else if op.kind in TokenAssOps && after.kind != LitStr && after.kind != LitChar {
        ConsumeToken();
        var value :- ParseAdditiveExpression();
        return Ok(Assignment(target, op.value, value));
      } else if op.kind == OpAss && after.kind == LitStr {
        ConsumeToken();
        var value :- ParseLiteral("string");
        return Ok(Assignment(target, op.value, value));
      } else if op.kind == OpAss && after.kind == LitChar {
        ConsumeToken();
        var value :- ParseLiteral("char");
        return Ok(Assignment(target, op.value, value));
      } else if op.kind in TokenUnrOps {
        ConsumeToken();
        return Ok(Unary(target, op.value));
      }
      return Err(S.SyntaxError);
    }

    /** A printed or returned value, by the kind of its first token. */
    method ParseValue() returns (r: Result<Expr, S.ParseError>)
      requires Ready() && S.IsValueStart(currentToken.value.kind)
      modifies this
      ensures Ready() && Agrees(r, S.ParseValue(tokens, old(tokenIndex)))
      decreases |tokens| - tokenIndex, 13
    {
      var k := currentToken.value.kind;
      if k == LitInt {
        r := ParseLiteral("int");
      } else if k == Keyword {
        r := ParseEcKeywords();
      } else if k == LitFlt {
        r := ParseLiteral("float");
      } else if k == LitStr {
        r := ParseLiteral("string");
      } else if k == LitChar {
        r := ParseLiteral("char");
      } else if k == LitBoolTrue || k == LitBoolFalse {
        r := ParseLiteral("bool");
      } else {
        r := ParseIdentifier();
      }
    }

    /** The values of an output statement, joined by `+`, up to the `)`, which is left current. */
    method ParseOutputValues() returns (r: Result<seq<Expr>, S.ParseError>)
      requires Ready()
      modifies this
      ensures Ready() && Agrees(r, S.OutputValues(tokens, old(tokenIndex), []))
      decreases |tokens| - tokenIndex, 14
    {
      ghost var a := tokenIndex;
      var values := [];
      while currentToken.value.kind != DelRParen
        invariant Ready() && a <= tokenIndex
        invariant S.OutputValues(tokens, a, []) == S.OutputValues(tokens, tokenIndex, values)
        decreases |tokens| - tokenIndex
      {
        ghost var p := tokenIndex;
        if !S.IsValueStart(currentToken.value.kind) {
          assert S.OutputValues(tokens, p, values) == Err(S.SyntaxError);
          return Err(S.SyntaxError);
        }
        ghost var spec := S.ParseValue(tokens, p);
        var v := ParseValue();
        if v.Err? {
          assert S.OutputValues(tokens, p, values) == Err(v.error);
          return Err(v.error);
        }
        assert spec == Ok(S.Parsed(v.value, tokenIndex));
        ghost var before := values;
        values := values + [v.value];
        var k := currentToken.value.kind;
        assert k == S.Cur(tokens, tokenIndex).kind;
        if k == DelRParen {
          assert S.OutputValues(tokens, p, before) == Ok(S.Parsed(values, tokenIndex));
          return Ok(values);
        } else if k == OpAdd {
          ConsumeToken();
        } else {
          assert S.OutputValues(tokens, p, before) == Err(S.SyntaxError);
          return Err(S.SyntaxError);
        }
      }
      assert S.OutputValues(tokens, tokenIndex, values) == Ok(S.Parsed(values, tokenIndex));
      return Ok(values);
    }

    /** `Print ( values )` or `PrintLine ( values )`. */
    method ParseOutputStatement() returns (r: Result<Stmt, S.ParseError>)
      requires Ready() && currentToken.value.kind == ReservedWord
      modifies this
      ensures Ready() && Agrees(r, S.ParseOutput(tokens, old(tokenIndex)))
      decreases |tokens| - tokenIndex, 15
    {
      var statement := currentToken.value.value;
      ConsumeToken();
      var _ :- MatchType(DelLParen);
      var values :- ParseOutputValues();
      ConsumeToken();
      return Ok(Output(statement + "()", values));
    }

    /** `return value`; a value of any other kind is left unbound. */
    method ParseReturnStatement() returns (r: Result<Stmt, S.ParseError>)
      requires Ready() && currentToken.value.kind == ReservedWord
      modifies this
      ensures Ready() && Agrees(r, S.ParseReturn(tokens, old(tokenIndex)))
      decreases |tokens| - tokenIndex, 14
    {
      ConsumeToken();
      if !S.IsValueStart(currentToken.value.kind) {
        return Err(S.ParseCrash);
      }
      var value :- ParseValue();
      return Ok(Return(value));
    }

    // -------------------------------------------------------------------
    // Loops and conditionals
    // -------------------------------------------------------------------

    /** `( condition )` */
    method ParseCondition() returns (r: Result<Expr, S.ParseError>)
      requires Ready()
      modifies this
      ensures Ready() && Agrees(r, S.ParseCondition(tokens, old(tokenIndex)))
    {
      var _ :- MatchType(DelLParen);
      var condition :- ParseLogicalOrExpression();
      var _ :- MatchType(DelRParen);
      return Ok(condition);
    }

    /** `{ body }` */
    method ParseBlock() returns (r: Result<Body, S.ParseError>)
      requires Ready()
      modifies this
      ensures Ready() && Agrees(r, S.ParseBlock(tokens, old(tokenIndex)))
      decreases |tokens| - tokenIndex, if currentToken.value.kind == DelLBrace then 22 else 0
    {
      var _ :- MatchType(DelLBrace);
      var body :- ParseBody();
      // the body loop stops only at a `}`, so this match succeeds
      var _ := MatchType(DelRBrace);
      return Ok(body);
    }

    method ParseWhileStatement() returns (r: Result<Stmt, S.ParseError>)
      requires Ready() && currentToken.value.kind == ReservedWord
      modifies this
      ensures Ready() && Agrees(r, S.ParseWhile(tokens, old(tokenIndex)))
      decreases |tokens| - tokenIndex, 18
    {
      ConsumeToken();
      var condition :- ParseCondition();
      var body :- ParseBlock();
      return Ok(Loop("while_loop", condition, body));
    }

    method ParseDoWhileStatement() returns (r: Result<Stmt, S.ParseError>)
      requires Ready() && currentToken.value.kind == ReservedWord
      modifies this
      ensures Ready() && Agrees(r, S.ParseDoWhile(tokens, old(tokenIndex)))
      decreases |tokens| - tokenIndex, 18
    {
      ConsumeToken();
      var body :- ParseBlock();
      var _ :- MatchResword("while");
      var condition :- ParseCondition();
      return Ok(Loop("do_while_loop", condition, body));
    }

    /** The first clause of a `for` loop. */
    method ParseForInit() returns (r: Result<ForInit, S.ParseError>)
      requires Ready()
      modifies this
      ensures Ready() && Agrees(r, S.ParseForInit(tokens, old(tokenIndex)))
      decreases |tokens| - tokenIndex, 17
    {
      var k := currentToken.value.kind;
      if KindName(k) == "DT_INT" || KindName(k) == "DT_FLOAT" {
        var d :- ParseDeclarationStatement();
        return Ok(InitDeclaration(d.dataType, d.bindings));
      } else if k == Identifier {
        var list :- ParseVariableList("int");
        return Ok(InitList(list));
      }
      return Err(S.SyntaxError);
    }

    /** The third clause of a `for` loop; None when the step is left unbound. */
    method ParseForStep() returns (r: Result<Option<Stmt>, S.ParseError>)
      requires Ready()
      modifies this
      ensures Ready() && Agrees(r, S.ParseForStep(tokens, old(tokenIndex)))
      decreases |tokens| - tokenIndex, 14
    {
      if currentToken.value.kind != Identifier {
        return Err(S.SyntaxError);
      }
      var next := PeekNextToken();
      if next.None? {
        return Err(S.ParseCrash);
      }
      if next.value.kind in TokenUnrOps {
        var step :- ParseAssignmentUnaryStatement();
        return Ok(Some(step));
      }
      return Ok(None);
    }

    /** `( init ; condition ; step )` */
    method ParseForHeader() returns (r: Result<S.ForHeader, S.ParseError>)
      requires Ready()
      modifies this
      ensures Ready() && Agrees(r, S.ParseForHeader(tokens, old(tokenIndex)))
    {
      var _ :- MatchType(DelLParen);
      var init :- ParseForInit();
      var _ :- CheckSemicolon();
      var rest :- ParseForRest();
      return Ok(S.ForHeader(init, rest.0, rest.1));
    }

    method ParseForRest() returns (r: Result<(Expr, Option<Stmt>), S.ParseError>)
      requires Ready()
      modifies this
      ensures Ready() && Agrees(r, S.ParseForRest(tokens, old(tokenIndex)))
    {
      var condition :- ParseLogicalOrExpression();
      var _ :- CheckSemicolon();
      var step :- ParseForStep();
      var _ :- MatchType(DelRParen);
      return Ok((condition, step));
    }

    method ParseForStatement() returns (r: Result<Stmt, S.ParseError>)
      requires Ready() && currentToken.value.kind == ReservedWord
      modifies this
      ensures Ready() && Agrees(r, S.ParseFor(tokens, old(tokenIndex)))
      decreases |tokens| - tokenIndex, 18
    {
      ConsumeToken();
      var header :- ParseForHeader();
      var body :- ParseBlock();
      if header.step.None? {
        // the source reads an unbound step variable here; the `)` test of
        // the header already rejects such a step, so this branch is never
        // taken (ParserProps.ForStepIsBound)
        return Err(S.ParseCrash);
      }
      return Ok(For(header.init, header.condition, header.step.value, body));
    }

    /** `if ( condition ) { body }` followed by any number of `elseif` and `else` parts. */
    method ParseIfStatement() returns (r: Result<Stmt, S.ParseError>)
      requires Ready() && currentToken.value.kind == ReservedWord
      modifies this
      ensures Ready() && Agrees(r, S.ParseIf(tokens, old(tokenIndex)))
      decreases |tokens| - tokenIndex, 18
    {
      ConsumeToken();
      var condition :- ParseCondition();
      var ifBody :- ParseBlock();
      ghost var d := tokenIndex;
      var elseBody: Option<Body> := None;
      var elifConditions: seq<Expr> := [];
      var elifBodies: seq<Body> := [];
      while currentToken.value.kind == ReservedWord && (currentToken.value.value == "elseif" || currentToken.value.value == "else")
        invariant Ready() && d <= tokenIndex
        invariant S.ParseAlternatives(tokens, d, S.Alternatives([], [], None))
               == S.ParseAlternatives(tokens, tokenIndex, S.Alternatives(elifConditions, elifBodies, elseBody))
        decreases |tokens| - tokenIndex
      {
        if currentToken.value.value == "elseif" {
          ConsumeToken();
          var c :- ParseCondition();
          elifConditions := elifConditions + [c];
          var b :- ParseBlock();
          elifBodies := elifBodies + [b];
        } else {
          ConsumeToken();
          var b :- ParseBlock();
          elseBody := Some(b);
        }
      }
      return Ok(Conditional(condition, ifBody, elifConditions, elifBodies, elseBody));
    }

    // -------------------------------------------------------------------
    // Statements, bodies and the program
    // -------------------------------------------------------------------

    /** One statement, chosen by the current token; simple statements and `do` end in `;`. */
    method IdentifyStatements() returns (r: Result<Stmt, S.ParseError>)
      requires Ready()
      modifies this
      ensures Ready() && Agrees(r, S.ParseStatement(tokens, old(tokenIndex)))
      decreases |tokens| - tokenIndex, 19
    {
      var t := currentToken.value;
      if t.kind in TokenDataTypes {
        var node :- ParseDeclarationStatement();
        var _ :- CheckSemicolon();
        return Ok(node);
      } else if t.kind == Identifier {
        var node :- ParseAssignmentUnaryStatement();
        var _ :- CheckSemicolon();
        return Ok(node);
      } else if t.kind == ReservedWord && (t.value == "Print" || t.value == "PrintLine") {
        var node :- ParseOutputStatement();
        var _ :- CheckSemicolon();
        return Ok(node);
      } else if t.kind == ReservedWord && t.value == "return" {
        var node :- ParseReturnStatement();
        var _ :- CheckSemicolon();
        return Ok(node);
      } else if t.kind == ReservedWord && t.value == "do" {
        var node :- ParseDoWhileStatement();
        var _ :- CheckSemicolon();
        return Ok(node);
      } else if t.kind == ReservedWord && t.value == "while" {
        r := ParseWhileStatement();
      } else if t.kind == ReservedWord && t.value == "for" {
        r := ParseForStatement();
      } else if t.kind == ReservedWord && t.value == "if" {
        r := ParseIfStatement();
      } else {
        return Err(S.SyntaxError);
      }
    }

    /** Statements up to the closing `}`, which is left current. */
    method ParseBody() returns (r: Result<Body, S.ParseError>)
      requires Ready()
      modifies this
      ensures Ready() && Agrees(r, S.ParseBody(tokens, old(tokenIndex)))
      decreases |tokens| - tokenIndex, 21
    {
      ghost var i0 := tokenIndex;
      var statements := [];
      while currentToken.value.kind != DelRBrace
        invariant Ready() && i0 <= tokenIndex
        invariant S.BodyStatements(tokens, i0, []) == S.BodyStatements(tokens, tokenIndex, statements)
        decreases |tokens| - tokenIndex
      {
        var statement :- IdentifyStatements();
        statements := statements + [statement];
      }
      return Ok(Body(statements));
    }

    /** `Main { body }`, from a fresh parser. */
    method ParseEcProgStatement() returns (r: Result<Program, S.ParseError>)
      requires Valid() && tokenIndex == 0
      modifies this
      ensures r == S.ParseProgram(tokens)
    {
      ConsumeToken();
      if currentToken.None? {
        return Err(S.SyntaxError);
      }
      var _ :- MatchResword("Main");
      var body :- ParseBlock();
      return Ok(Program(body));
    }
  }

  /** Parse a token list from the start, as the shell does after lexing. */
  method Parse(tokens: seq<Token>) returns (r: Result<Program, S.ParseError>)
    ensures r == S.ParseProgram(tokens)
  {
    var parser := new Parser(tokens);
    r := parser.ParseEcProgStatement();
  }
}
