/** The parser on small token lists. */
module ParserExamples {
  import opened Wrappers
  import opened Constants
  import opened Tokens
  import opened Ast
  import opened ParseSpec
  import opened ParserProps

  function Id(name: string): Token { Token(Identifier, name) }
  function Sym(k: Kind, text: string): Token { Token(k, text) }
  function Word(text: string): Token { Token(ReservedWord, text) }

  /** `a - b - c` groups as `(a - b) - c`. */
  lemma SubtractionGroupsLeft(T: seq<Token>)
    requires T == [Id("a"), Sym(OpSub, "-"), Id("b"), Sym(OpSub, "-"), Id("c"), Sym(DelSemicolon, ";")]
    ensures ParseAdditive(T, 1) == Ok(Parsed(BinOp(BinOp(Ident("a"), T[1], Ident("b")), T[3], Ident("c")), 6))
  {
    var ab := BinOp(Ident("a"), T[1], Ident("b"));
    assert AdditiveTail(T, 6, BinOp(ab, T[3], Ident("c"))) == Ok(Parsed(BinOp(ab, T[3], Ident("c")), 6));
    assert ParseMultiplicative(T, 5) == Ok(Parsed(Ident("c"), 6));
    assert AdditiveTail(T, 4, ab) == Ok(Parsed(BinOp(ab, T[3], Ident("c")), 6));
    assert ParseMultiplicative(T, 3) == Ok(Parsed(Ident("b"), 4));
    assert ParseMultiplicative(T, 1) == Ok(Parsed(Ident("a"), 2));
  }

  /** `a + b * c` groups as `a + (b * c)`. */
  lemma ProductBindsTighter(T: seq<Token>)
    requires T == [Id("a"), Sym(OpAdd, "+"), Id("b"), Sym(OpMul, "*"), Id("c"), Sym(DelSemicolon, ";")]
    ensures ParseAdditive(T, 1) == Ok(Parsed(BinOp(Ident("a"), T[1], BinOp(Ident("b"), T[3], Ident("c"))), 6))
  {
    var bc := BinOp(Ident("b"), T[3], Ident("c"));
    assert ParsePrimary(T, 5) == Ok(Parsed(Ident("c"), 6));
    assert MultiplicativeTail(T, 4, Ident("b")) == Ok(Parsed(bc, 6));
    assert ParseMultiplicative(T, 3) == Ok(Parsed(bc, 6));
    assert AdditiveTail(T, 2, Ident("a")) == Ok(Parsed(BinOp(Ident("a"), T[1], bc), 6));
    assert ParseMultiplicative(T, 1) == Ok(Parsed(Ident("a"), 2));
  }

  /** In `a < b < c` the relational level takes `a < b` and leaves the second `<`. */
  lemma ChainedComparisonStops(T: seq<Token>)
    requires T == [Id("a"), Sym(OpLst, "<"), Id("b"), Sym(OpLst, "<"), Id("c"), Sym(DelRParen, ")")]
    ensures ParseRelational(T, 1) == Ok(Parsed(BinOp(Ident("a"), T[1], Ident("b")), 4))
  {
    assert Cur(T, 1) == Id("a") && T[1].kind == OpLst;
    ArithmeticOperand(T, 1);
    assert Cur(T, 3) == Id("b") && T[3].kind == OpLst;
    ArithmeticOperand(T, 3);
  }

  /** In `x >= 1` the relational level does not take `>=`: it stops after `x`. */
  lemma GreaterOrEqualStops(T: seq<Token>)
    requires T == [Id("x"), Sym(OpGrtEq, ">="), Sym(LitInt, "1"), Sym(DelRParen, ")")]
    ensures ParseRelational(T, 1) == Ok(Parsed(Ident("x"), 2))
  {
    assert Cur(T, 1) == Id("x") && T[1].kind == OpGrtEq;
    ArithmeticOperand(T, 1);
    RelationalOperators(OpGrtEq);
  }

  /** A `(` as the last token is parsed again and again: the interpreter gives up. */
  lemma OpenParenAtEndCrashes()
    ensures ParsePrimary([Sym(DelLParen, "(")], 1) == Err(ParseCrash)
  {
  }

  /** `return ( x )` leaves the returned value unbound. */
  lemma ParenthesisedReturnCrashes(T: seq<Token>)
    requires T == [Word("return"), Sym(DelLParen, "("), Id("x"), Sym(DelRParen, ")"), Sym(DelSemicolon, ";")]
    ensures ParseReturn(T, 1) == Err(ParseCrash)
  {
  }

  /** The tokens of `do { } while ( x ) ;` with `while` lexed as a name. */
  const DoWhileTokens: seq<Token> :=
    [Word("do"), Sym(DelLBrace, "{"), Sym(DelRBrace, "}"), Id("while"),
     Sym(DelLParen, "("), Id("x"), Sym(DelRParen, ")"), Sym(DelSemicolon, ";")]

  /** `do { } while ( x )` with `while` lexed as a name: only the text is compared. */
  lemma DoWhileByText()
    ensures ParseDoWhile(DoWhileTokens, 1) == Ok(Parsed(Loop("do_while_loop", Ident("x"), Body([])), 8))
  {
    var T := DoWhileTokens;
    EmptyDoBody(T);
    DoWhileCondition(T);
    assert ExpectValue(T, 4, "while") == Ok(5);
  }

  lemma EmptyDoBody(T: seq<Token>)
    requires |T| > 3 && T[1].kind == DelLBrace && T[2].kind == DelRBrace
    ensures ParseBlock(T, 2) == Ok(Parsed(Body([]), 4))
  {
    assert BodyStatements(T, 3, []) == Ok(Parsed([], 3));
  }

  lemma DoWhileCondition(T: seq<Token>)
    requires |T| > 7 && T[4].kind == DelLParen && T[5] == Id("x") && T[6].kind == DelRParen
    ensures ParseCondition(T, 5) == Ok(Parsed(Ident("x"), 8))
  {
    assert Cur(T, 6) == Id("x");
    LoneOperand(T, 6);
  }

  /**
   * `Main { while ( x ) { }` with no final `}`: the cursor stands still on
   * the loop's `}`, which the body then reads again as the program's `}`.
   */
  lemma MissingFinalBraceAccepted(T: seq<Token>)
    requires |T| == 8 && T[0] == Word("Main") && T[1] == Sym(DelLBrace, "{") && T[2] == Word("while")
    requires T[3] == Sym(DelLParen, "(") && T[4] == Id("x") && T[5] == Sym(DelRParen, ")")
    requires T[6] == Sym(DelLBrace, "{") && T[7] == Sym(DelRBrace, "}")
    ensures ParseProgram(T) == Ok(Program(Body([Loop("while_loop", Ident("x"), Body([]))])))
  {
    TrailingWhile(T);
    CompoundStatements(T, 3);
    OneStatementProgram(T, Loop("while_loop", Ident("x"), Body([])));
  }

  /** `Main {` then one statement that ends on the last token, a `}`. */
  lemma OneStatementProgram(T: seq<Token>, s: Stmt)
    requires |T| == 8 && T[0].value == "Main" && T[1].kind == DelLBrace && T[7].kind == DelRBrace
    requires ParseStatement(T, 3) == Ok(Parsed(s, 8))
    ensures ParseProgram(T) == Ok(Program(Body([s])))
  {
    SingleStatement(s);
    assert BodyStatements(T, 8, [s]) == Ok(Parsed([s], 8));
    assert BodyStatements(T, 3, []) == Ok(Parsed([s], 8));
    assert ParseBlock(T, 2) == Ok(Parsed(Body([s]), 8));
    assert ExpectValue(T, 1, "Main") == Ok(2);
  }

  lemma SingleStatement(s: Stmt)
    ensures [] + [s] == [s]
  {
  }

  lemma TrailingWhile(T: seq<Token>)
    requires |T| == 8 && T[2] == Word("while") && T[3].kind == DelLParen && T[4] == Id("x")
    requires T[5].kind == DelRParen && T[6].kind == DelLBrace && T[7].kind == DelRBrace
    ensures ParseWhile(T, 3) == Ok(Parsed(Loop("while_loop", Ident("x"), Body([])), 8))
  {
    assert BodyStatements(T, 8, []) == Ok(Parsed([], 8));
    assert ParseBlock(T, 7) == Ok(Parsed(Body([]), 8));
    assert Cur(T, 5) == Id("x");
    LoneOperand(T, 5);
    assert ParseCondition(T, 4) == Ok(Parsed(Ident("x"), 7));
  }

  /** The literal `42` of `int x = 42 ;` inside `Main { ... }`. */
  lemma IntegerValue(T: seq<Token>)
    requires T == [Word("Main"), Sym(DelLBrace, "{"), Sym(DatatypeInt, "int"), Id("x"), Sym(OpAss, "="), Sym(LitInt, "42"), Sym(DelSemicolon, ";"), Sym(DelRBrace, "}")]
    ensures ParseLiteral(T, 6, "int") == Ok(Parsed(Number("42", false), 7))
  {
    assert Cur(T, 6) == Sym(LitInt, "42") && T[6].kind == DelSemicolon;
    NumericLiterals(T, 6);
    ArithmeticOperand(T, 6);
  }

  /** The initialiser `= 42` of `int x = 42 ;` inside `Main { ... }`. */
  lemma InitialValue(T: seq<Token>)
    requires T == [Word("Main"), Sym(DelLBrace, "{"), Sym(DatatypeInt, "int"), Id("x"), Sym(OpAss, "="), Sym(LitInt, "42"), Sym(DelSemicolon, ";"), Sym(DelRBrace, "}")]
    ensures ParseInitialization(T, 5, "int") == Ok(Parsed(Some(Number("42", false)), 7))
  {
    IntegerValue(T);
    assert Cur(T, 5).kind == OpAss;
  }

  /** The names of `int x = 42 ;` inside `Main { ... }`. */
  lemma DeclaredNames(T: seq<Token>)
    requires T == [Word("Main"), Sym(DelLBrace, "{"), Sym(DatatypeInt, "int"), Id("x"), Sym(OpAss, "="), Sym(LitInt, "42"), Sym(DelSemicolon, ";"), Sym(DelRBrace, "}")]
    ensures ParseVariableList(T, 4, "int") == Ok(Parsed([Binding(Ident("x"), Some(Number("42", false)))], 7))
  {
    InitialValue(T);
    assert ParseIdentifier(T, 4) == Ok(Parsed(Ident("x"), 5));
    var b := Binding(Ident("x"), Some(Number("42", false)));
    assert VariableListTail(T, 7, "int", [b]) == Ok(Parsed([b], 7));
  }

  /** The declaration `int x = 42` inside `Main { ... }`, before its `;`. */
  lemma DeclarationNode(T: seq<Token>)
    requires T == [Word("Main"), Sym(DelLBrace, "{"), Sym(DatatypeInt, "int"), Id("x"), Sym(OpAss, "="), Sym(LitInt, "42"), Sym(DelSemicolon, ";"), Sym(DelRBrace, "}")]
    ensures ParseDeclaration(T, 3) == Ok(Parsed(Declaration("int", [Binding(Ident("x"), Some(Number("42", false)))]), 7))
  {
    DeclaredNames(T);
  }

  /** The statement `int x = 42 ;` inside `Main { ... }`. */
  lemma DeclarationStatement(T: seq<Token>)
    requires T == [Word("Main"), Sym(DelLBrace, "{"), Sym(DatatypeInt, "int"), Id("x"), Sym(OpAss, "="), Sym(LitInt, "42"), Sym(DelSemicolon, ";"), Sym(DelRBrace, "}")]
    ensures ParseStatement(T, 3) == Ok(Parsed(Declaration("int", [Binding(Ident("x"), Some(Number("42", false)))]), 8))
  {
    DeclarationNode(T);
    assert Cur(T, 3).kind == DatatypeInt;
    assert Expect(T, 7, DelSemicolon) == Ok(8);
  }

  /** `Main { int x = 42 ; }` */
  lemma SmallProgram(T: seq<Token>)
    requires T == [Word("Main"), Sym(DelLBrace, "{"), Sym(DatatypeInt, "int"), Id("x"), Sym(OpAss, "="), Sym(LitInt, "42"), Sym(DelSemicolon, ";"), Sym(DelRBrace, "}")]
    ensures ParseProgram(T) == Ok(Program(Body([Declaration("int", [Binding(Ident("x"), Some(Number("42", false)))])])))
  {
    var decl := Declaration("int", [Binding(Ident("x"), Some(Number("42", false)))]);
    DeclarationStatement(T);
    assert BodyStatements(T, 8, [decl]) == Ok(Parsed([decl], 8));
    assert [] + [decl] == [decl];
    assert BodyStatements(T, 3, []) == Ok(Parsed([decl], 8));
    assert ParseBlock(T, 2) == Ok(Parsed(Body([decl]), 8));
  }
}
