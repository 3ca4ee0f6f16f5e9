/**
 * Properties of the parser, stated over the functions of module ParseSpec
 * (which the methods of class EcParser.Parser are proved to follow).
 */
module ParserProps {
  import opened Wrappers
  import opened Constants
  import opened Tokens
  import opened Ast
  import opened ParseSpec
  import opened ConstantsProps
  import LexSpec
  import LexerProps

  // ---------------------------------------------------------------------
  // Order of collected items
  // ---------------------------------------------------------------------

  /** `r` with `acc` put in front of the items it collected. */
  function Prefixed<X>(acc: seq<X>, r: Outcome<seq<X>>): (p: Outcome<seq<X>>)
    ensures p.Ok? <==> r.Ok?
    ensures p.Ok? ==> p.value.node == acc + r.value.node && p.value.next == r.value.next
  {
    match r
    case Ok(q) => Ok(Parsed(acc + q.node, q.next))
    case Err(e) => Err(e)
  }

  lemma AppendAssociates<X>(a: seq<X>, b: seq<X>, c: seq<X>)
    ensures (a + b) + c == a + (b + c)
  {
  }

  /**
   * A body keeps its statements in source order: parsing with statements
   * already collected gives those statements followed by what a fresh
   * parse from the same token collects.
   */
  lemma {:induction false} BodyStatementsInOrder(T: seq<Token>, i: nat, acc: seq<Stmt>)
    requires 1 <= i <= |T|
    ensures BodyStatements(T, i, acc) == Prefixed(acc, BodyStatements(T, i, []))
    decreases |T| - i
  {
    if Cur(T, i).kind == DelRBrace {
      assert acc + [] == acc;
    } else {
      var s := ParseStatement(T, i);
      if s.Ok? {
        var n, st := s.value.next, s.value.node;
        assert BodyStatements(T, i, acc) == BodyStatements(T, n, acc + [st]);
        assert [] + [st] == [st];
        assert BodyStatements(T, i, []) == BodyStatements(T, n, [st]);
        BodyStatementsInOrder(T, n, acc + [st]);
        BodyStatementsInOrder(T, n, [st]);
        match BodyStatements(T, n, [])
        case Ok(q) =>
          AppendAssociates(acc, [st], q.node);
        case Err(_) =>
      }
    }
  }

  /** The values of an output statement keep their source order. */
  lemma {:induction false} OutputValuesInOrder(T: seq<Token>, i: nat, acc: seq<Expr>)
    requires 1 <= i <= |T|
    ensures OutputValues(T, i, acc) == Prefixed(acc, OutputValues(T, i, []))
    decreases |T| - i
  {
    if Cur(T, i).kind == DelRParen {
      assert acc + [] == acc;
    } else if IsValueStart(Cur(T, i).kind) {
      var v := ParseValue(T, i);
      if v.Ok? {
        var n, e := v.value.next, v.value.node;
        assert [] + [e] == [e];
        if Cur(T, n).kind == OpAdd {
          var m := Adv(T, n);
          assert OutputValues(T, i, acc) == OutputValues(T, m, acc + [e]);
          assert OutputValues(T, i, []) == OutputValues(T, m, [e]);
          OutputValuesInOrder(T, m, acc + [e]);
          OutputValuesInOrder(T, m, [e]);
          match OutputValues(T, m, [])
          case Ok(q) =>
            AppendAssociates(acc, [e], q.node);
          case Err(_) =>
        }
      }
    }
  }

  /** The names of a declaration keep their source order. */
  lemma {:induction false} VariableListInOrder(T: seq<Token>, i: nat, dt: string, acc: seq<Binding>)
    requires 1 <= i <= |T|
    ensures VariableListTail(T, i, dt, acc) == Prefixed(acc, VariableListTail(T, i, dt, []))
    decreases |T| - i
  {
    if Cur(T, i).kind != DelComma {
      assert acc + [] == acc;
    } else {
      var id := ParseIdentifier(T, Adv(T, i));
      if id.Ok? {
        var init := ParseInitialization(T, id.value.next, dt);
        if init.Ok? {
          var n, b := init.value.next, Binding(id.value.node, init.value.node);
          assert VariableListTail(T, i, dt, acc) == VariableListTail(T, n, dt, acc + [b]);
          assert [] + [b] == [b];
          assert VariableListTail(T, i, dt, []) == VariableListTail(T, n, dt, [b]);
          VariableListInOrder(T, n, dt, acc + [b]);
          VariableListInOrder(T, n, dt, [b]);
          match VariableListTail(T, n, dt, [])
          case Ok(q) =>
            AppendAssociates(acc, [b], q.node);
          case Err(_) =>
        }
      }
    }
  }

  // ---------------------------------------------------------------------
  // Associativity of the binary levels
  // ---------------------------------------------------------------------

  /**
   * `e` is `left` extended to the right by operators with kinds in `ops`:
   * `((left op r1) op r2) ...`, the shape of a left-associative chain.
   */
  predicate LeftChain(e: Expr, left: Expr, ops: set<Kind>) {
    e == left || (e.BinOp? && e.opToken.kind in ops && LeftChain(e.left, left, ops))
  }

  lemma {:induction false} LeftChainExtend(e: Expr, left: Expr, op: Token, right: Expr, ops: set<Kind>)
    requires op.kind in ops && LeftChain(e, BinOp(left, op, right), ops)
    ensures LeftChain(e, left, ops)
  {
    if e != BinOp(left, op, right) {
      LeftChainExtend(e.left, left, op, right, ops);
    }
  }

  /** `+` and `-` associate to the left: the tree built so far becomes the left operand. */
  lemma {:induction false} AdditiveTailIsLeftChain(T: seq<Token>, i: nat, left: Expr)
    requires 1 <= i <= |T|
    ensures AdditiveTail(T, i, left).Ok? ==> LeftChain(AdditiveTail(T, i, left).value.node, left, {OpAdd, OpSub})
    decreases |T| - i
  {
    var op := Cur(T, i);
    if IsAdditiveOp(op.kind) {
      var right := ParseMultiplicative(T, Adv(T, i));
      if right.Ok? {
        var e := BinOp(left, op, right.value.node);
        AdditiveTailIsLeftChain(T, right.value.next, e);
        if AdditiveTail(T, i, left).Ok? {
          LeftChainExtend(AdditiveTail(T, i, left).value.node, left, op, right.value.node, {OpAdd, OpSub});
        }
      }
    }
  }

  /** `*`, `/` and `%` associate to the left. */
  lemma {:induction false} MultiplicativeTailIsLeftChain(T: seq<Token>, i: nat, left: Expr)
    requires 1 <= i <= |T|
    ensures MultiplicativeTail(T, i, left).Ok? ==> LeftChain(MultiplicativeTail(T, i, left).value.node, left, {OpMul, OpDiv, OpMod})
    decreases |T| - i
  {
    var op := Cur(T, i);
    if IsMultiplicativeOp(op.kind) {
      var right := ParsePrimary(T, Adv(T, i));
      if right.Ok? {
        var e := BinOp(left, op, right.value.node);
        MultiplicativeTailIsLeftChain(T, right.value.next, e);
        if MultiplicativeTail(T, i, left).Ok? {
          LeftChainExtend(MultiplicativeTail(T, i, left).value.node, left, op, right.value.node, {OpMul, OpDiv, OpMod});
        }
      }
    }
  }

  /** `==` and `!=` associate to the left. */
  lemma {:induction false} EqualityTailIsLeftChain(T: seq<Token>, i: nat, left: Expr)
    requires 1 <= i <= |T|
    ensures EqualityTail(T, i, left).Ok? ==> LeftChain(EqualityTail(T, i, left).value.node, left, {OpEqt, OpNeqt})
    decreases |T| - i
  {
    var op := Cur(T, i);
    if IsEqualityOp(op.kind) {
      var right := ParseRelational(T, Adv(T, i));
      if right.Ok? {
        var e := BinOp(left, op, right.value.node);
        EqualityTailIsLeftChain(T, right.value.next, e);
        if EqualityTail(T, i, left).Ok? {
          LeftChainExtend(EqualityTail(T, i, left).value.node, left, op, right.value.node, {OpEqt, OpNeqt});
        }
      }
    }
  }

  /** `&&` associates to the left. */
  lemma {:induction false} LogicalAndTailIsLeftChain(T: seq<Token>, i: nat, left: Expr)
    requires 1 <= i <= |T|
    ensures LogicalAndTail(T, i, left).Ok? ==> LeftChain(LogicalAndTail(T, i, left).value.node, left, {OpLogAnd})
    decreases |T| - i
  {
    var op := Cur(T, i);
    if op.kind == OpLogAnd {
      var right := ParseEquality(T, Adv(T, i));
      if right.Ok? {
        var e := BinOp(left, op, right.value.node);
        LogicalAndTailIsLeftChain(T, right.value.next, e);
        if LogicalAndTail(T, i, left).Ok? {
          LeftChainExtend(LogicalAndTail(T, i, left).value.node, left, op, right.value.node, {OpLogAnd});
        }
      }
    }
  }

  /** `||` associates to the left. */
  lemma {:induction false} LogicalOrTailIsLeftChain(T: seq<Token>, i: nat, left: Expr)
    requires 1 <= i <= |T|
    ensures LogicalOrTail(T, i, left).Ok? ==> LeftChain(LogicalOrTail(T, i, left).value.node, left, {OpLogOr})
    decreases |T| - i
  {
    var op := Cur(T, i);
    if op.kind == OpLogOr {
      var right := ParseLogicalAnd(T, Adv(T, i));
      if right.Ok? {
        var e := BinOp(left, op, right.value.node);
        LogicalOrTailIsLeftChain(T, right.value.next, e);
        if LogicalOrTail(T, i, left).Ok? {
          LeftChainExtend(LogicalOrTail(T, i, left).value.node, left, op, right.value.node, {OpLogOr});
        }
      }
    }
  }

  // ---------------------------------------------------------------------
  // The relational level
  // ---------------------------------------------------------------------

  /** The relational operators the parser recognises: `>`, `<` and `<=`, never `>=`. */
  lemma RelationalOperators(k: Kind)
    ensures IsRelationalOp(k) <==> k == OpGrt || k == OpLst || k == OpLstEq
  {
    NoKindNamedOpGrtEq(k);
  }

  /**
   * The relational level takes at most one operator: a second relational
   * operator right after the right operand is left for the caller, and
   * `>=` is never taken at all.
   */
  lemma RelationalTakesAtMostOne(T: seq<Token>, i: nat)
    requires 1 <= i <= |T| && ParseRelational(T, i).Ok? && ParseAdditive(T, i).Ok?
    ensures var left := ParseAdditive(T, i).value;
            var r := ParseRelational(T, i).value;
            || (r == left && !IsRelationalOp(Cur(T, left.next).kind))
            || (IsRelationalOp(Cur(T, left.next).kind)
                && r.node == BinOp(left.node, Cur(T, left.next), ParseAdditive(T, Adv(T, left.next)).value.node)
                && r.next == ParseAdditive(T, Adv(T, left.next)).value.next)
    ensures Cur(T, ParseAdditive(T, i).value.next).kind == OpGrtEq ==> ParseRelational(T, i) == ParseAdditive(T, i)
  {
    RelationalOperators(Cur(T, ParseAdditive(T, i).value.next).kind);
  }

  /** The operators some level of the expression ladder takes. */
  predicate IsBinaryOp(k: Kind) {
    IsMultiplicativeOp(k) || IsAdditiveOp(k) || IsRelationalOp(k) || IsEqualityOp(k)
    || k == OpLogAnd || k == OpLogOr
  }

  /** The arithmetic expression a single operand forms when no `*`, `/`, `%`, `+` or `-` follows it. */
  lemma ArithmeticOperand(T: seq<Token>, i: nat)
    requires 1 <= i < |T| && IsOperand(Cur(T, i).kind)
    requires !IsMultiplicativeOp(T[i].kind) && !IsAdditiveOp(T[i].kind)
    ensures var t := Cur(T, i);
            var e := if t.kind == Identifier then Ident(t.value) else Number(t.value, t.kind == LitFlt);
            ParseAdditive(T, i) == Ok(Parsed(e, i + 1))
  {
    var t := Cur(T, i);
    var e := if t.kind == Identifier then Ident(t.value) else Number(t.value, t.kind == LitFlt);
    assert Cur(T, i + 1) == T[i];
    assert ParsePrimary(T, i) == Ok(Parsed(e, i + 1));
    assert ParseMultiplicative(T, i) == Ok(Parsed(e, i + 1));
  }

  /** A single operand followed by no operator is a whole expression at every level. */
  lemma LoneOperand(T: seq<Token>, i: nat)
    requires 1 <= i < |T| && IsOperand(Cur(T, i).kind) && !IsBinaryOp(T[i].kind)
    ensures var t := Cur(T, i);
            var e := if t.kind == Identifier then Ident(t.value) else Number(t.value, t.kind == LitFlt);
            && ParseAdditive(T, i) == Ok(Parsed(e, i + 1))
            && ParseLogicalOr(T, i) == Ok(Parsed(e, i + 1))
  {
    var t := Cur(T, i);
    var e := if t.kind == Identifier then Ident(t.value) else Number(t.value, t.kind == LitFlt);
    assert Cur(T, i + 1) == T[i];
    assert ParsePrimary(T, i) == Ok(Parsed(e, i + 1));
    assert ParseMultiplicative(T, i) == Ok(Parsed(e, i + 1));
    assert ParseAdditive(T, i) == Ok(Parsed(e, i + 1));
    assert ParseRelational(T, i) == Ok(Parsed(e, i + 1));
    assert ParseEquality(T, i) == Ok(Parsed(e, i + 1));
    assert ParseLogicalAnd(T, i) == Ok(Parsed(e, i + 1));
  }

  // ---------------------------------------------------------------------
  // Primary expressions, literals and initialisers
  // ---------------------------------------------------------------------

  /** Only an int or float literal, `(` or a name can start an operand. */
  lemma PrimaryStarts(T: seq<Token>, i: nat)
    requires 1 <= i <= |T|
    ensures ParsePrimary(T, i).Ok? ==> StartsOperand(Cur(T, i).kind)
    ensures !StartsOperand(Cur(T, i).kind) ==> ParsePrimary(T, i) == Err(SyntaxError)
    ensures Cur(T, i).kind == DelLParen && i == |T| ==> ParsePrimary(T, i) == Err(ParseCrash)
  {
  }

  /**
   * Because the branch tests group as `(kind and type) or type`, an
   * expected type of `bool` turns any token that gets that far into a
   * literal, and an expected `float` rejects an int literal.
   */
  lemma LiteralTypeTests(T: seq<Token>, i: nat)
    requires 1 <= i <= |T|
    ensures var t := Cur(T, i);
            t.kind !in {Keyword, DelLParen} && !(t.kind == ReservedWord && t.value == "Scan")
            ==> ParseLiteral(T, i, "bool") == Ok(Parsed(Literal(t.value), Adv(T, i)))
    ensures Cur(T, i).kind == LitInt ==> ParseLiteral(T, i, "float") == Err(SyntaxError)
    ensures Cur(T, i).kind == LitStr ==> ParseLiteral(T, i, "int") == Err(SyntaxError)
  {
  }

  /** An int literal under type int, and a float literal under type float, starts an arithmetic expression. */
  lemma NumericLiterals(T: seq<Token>, i: nat)
    requires 1 <= i <= |T|
    ensures Cur(T, i).kind == LitInt ==> ParseLiteral(T, i, "int") == ParseAdditive(T, i)
    ensures Cur(T, i).kind == LitFlt ==> ParseLiteral(T, i, "float") == ParseAdditive(T, i)
  {
  }

  /**
   * int and float take any assignment operator before an initialiser, or
   * none; string, char and bool take exactly `=`.
   */
  lemma InitializerOperators(T: seq<Token>, i: nat, dt: string)
    requires 1 <= i <= |T|
    ensures dt in ["int", "float"] && Cur(T, i).kind !in TokenAssOps
            ==> ParseInitialization(T, i, dt) == Ok(Parsed(None, i))
    ensures dt in ["string", "char", "bool"] && Cur(T, i).kind != OpAss
            ==> ParseInitialization(T, i, dt) == Err(SyntaxError)
    ensures ParseInitialization(T, i, dt).Ok? && ParseInitialization(T, i, dt).value.node.Some?
            ==> Cur(T, i).kind in TokenAssOps
  {
  }

  // ---------------------------------------------------------------------
  // Statements led by a name
  // ---------------------------------------------------------------------

  /**
   * A statement led by a name needs two more tokens, and the token after
   * the operator alone decides whether it is a macro: the name before it
   * is then dropped.
   */
  lemma NameLedStatement(T: seq<Token>, i: nat)
    requires 1 <= i <= |T| && ParseAssignmentUnary(T, i).Ok?
    ensures Cur(T, i).kind == Identifier && i + 1 < |T|
    ensures var s := ParseAssignmentUnary(T, i).value.node;
            && (s.MacroStmt? <==> T[i + 1].value in Keywords)
            && (s.MacroStmt? || s.Input? || s.Assignment? || s.Unary?)
  {
    var id := ParseIdentifier(T, i).value;
    assert id.next == i + 1;
    AfterNameKinds(T, i + 1, id.node, T[i + 1]);
  }

  /** After the name, the statement is a macro exactly when `after` is a macro name. */
  lemma AfterNameKinds(T: seq<Token>, j: nat, target: Expr, after: Token)
    requires 1 <= j <= |T| && ParseAfterName(T, j, target, after).Ok?
    ensures var s := ParseAfterName(T, j, target, after).value.node;
            && (s.MacroStmt? <==> after.value in Keywords)
            && (s.MacroStmt? || s.Input? || s.Assignment? || s.Unary?)
  {
    var op := Cur(T, j);
    var s := ParseAfterName(T, j, target, after).value.node;
    if after.value in Keywords {
      assert s.MacroStmt?;
    } else if op.kind == OpAss && after.value == "Scan" {
      assert s.Input?;
    } else if op.kind in TokenAssOps && after.kind != LitStr && after.kind != LitChar {
      assert s.Assignment?;
    } else if op.kind == OpAss && (after.kind == LitStr || after.kind == LitChar) {
      assert s.Assignment?;
    } else {
      assert s.Unary?;
    }
  }

  /**
   * The operator after the name (`T[i]`) decides the rest: `= Scan` reads
   * input, an assignment operator assigns (a string or char only with
   * `=`), `++` and `--` step the name.
   */
  lemma NameLedOperators(T: seq<Token>, i: nat)
    requires 1 <= i <= |T| && ParseAssignmentUnary(T, i).Ok?
    ensures i + 1 < |T|
    ensures var s := ParseAssignmentUnary(T, i).value.node;
            var name := Ident(Cur(T, i).value);
            var op := T[i];
            && (s.Input? ==> s.target == name && op.kind == OpAss && T[i + 1].value == "Scan")
            && (s.Assignment? ==> s.target == name && op.kind in TokenAssOps && s.op == op.value)
            && (s.Assignment? && (T[i + 1].kind == LitStr || T[i + 1].kind == LitChar) ==> op.kind == OpAss)
            && (s.Unary? ==> s.target == name && op.kind in TokenUnrOps && s.op == op.value)
  {
    var id := ParseIdentifier(T, i).value;
    assert id.next == i + 1;
    AfterNameInput(T, i + 1, id.node, T[i + 1]);
    AfterNameAssignment(T, i + 1, id.node, T[i + 1]);
    AfterNameUnary(T, i + 1, id.node, T[i + 1]);
  }

  /** After the name, `= Scan` is the only way to an input statement. */
  lemma AfterNameInput(T: seq<Token>, j: nat, target: Expr, after: Token)
    requires 1 <= j <= |T| && ParseAfterName(T, j, target, after).Ok?
    ensures var s := ParseAfterName(T, j, target, after).value.node;
            s.Input? ==> s.target == target && Cur(T, j).kind == OpAss && after.value == "Scan"
  {
    var op := Cur(T, j);
    var s := ParseAfterName(T, j, target, after).value.node;
    if after.value in Keywords {
      assert s.MacroStmt?;
    } else if op.kind == OpAss && after.value == "Scan" {
      assert s == Input(target);
    } else {
      assert !s.Input?;
    }
  }

  /** After the name, an assignment carries its operator, which is `=` before a string or a char. */
  lemma AfterNameAssignment(T: seq<Token>, j: nat, target: Expr, after: Token)
    requires 1 <= j <= |T| && ParseAfterName(T, j, target, after).Ok?
    ensures var s := ParseAfterName(T, j, target, after).value.node;
            var op := Cur(T, j);
            && (s.Assignment? ==> s.target == target && op.kind in TokenAssOps && s.op == op.value)
            && (s.Assignment? && (after.kind == LitStr || after.kind == LitChar) ==> op.kind == OpAss)
  {
    var op := Cur(T, j);
    var s := ParseAfterName(T, j, target, after).value.node;
    if after.value in Keywords {
      assert s.MacroStmt?;
    } else if op.kind == OpAss && after.value == "Scan" {
      assert s.Input?;
    } else if op.kind in TokenAssOps && after.kind != LitStr && after.kind != LitChar {
      assert s.target == target && s.op == op.value;
    } else if op.kind == OpAss && (after.kind == LitStr || after.kind == LitChar) {
      assert s.target == target && s.op == op.value;
    } else {
      assert !s.Assignment?;
    }
  }

  /** After the name, `++` or `--` makes a unary statement. */
  lemma AfterNameUnary(T: seq<Token>, j: nat, target: Expr, after: Token)
    requires 1 <= j <= |T| && ParseAfterName(T, j, target, after).Ok?
    ensures var s := ParseAfterName(T, j, target, after).value.node;
            s.Unary? ==> s.target == target && Cur(T, j).kind in TokenUnrOps && s.op == Cur(T, j).value
  {
    var op := Cur(T, j);
    var s := ParseAfterName(T, j, target, after).value.node;
    if after.value in Keywords {
      assert s.MacroStmt?;
    } else if op.kind == OpAss && after.value == "Scan" {
      assert s.Input?;
    } else if op.kind in TokenAssOps && after.kind != LitStr && after.kind != LitChar {
      assert s.Assignment?;
    } else if op.kind == OpAss && (after.kind == LitStr || after.kind == LitChar) {
      assert s.Assignment?;
    } else {
      assert s == Unary(target, op.value);
    }
  }

  /** When neither the token after the operator nor the operator fits a case, it is a syntax error. */
  lemma NameLedStatementRejects(T: seq<Token>, i: nat)
    requires 1 < i + 1 < |T| && Cur(T, i).kind == Identifier
    requires T[i + 1].value !in Keywords && T[i].kind !in TokenAssOps && T[i].kind !in TokenUnrOps
    ensures ParseAssignmentUnary(T, i) == Err(SyntaxError)
  {
    assert Peek(T, i + 1) == Some(T[i + 1]);
  }

  // ---------------------------------------------------------------------
  // Macro keywords
  // ---------------------------------------------------------------------

  // Each macro keyword has an expansion, a few keywords at a time.

  lemma KeywordShapes0To12()
    ensures forall i | 0 <= i < 12 :: MacroShape(Keywords[i]).Some?
  {
  }

  lemma KeywordShapes12To19()
    ensures forall i | 12 <= i < 19 :: MacroShape(Keywords[i]).Some?
  {
  }

  lemma KeywordShapes19To25()
    ensures forall i | 19 <= i < 25 :: MacroShape(Keywords[i]).Some?
  {
  }

  lemma KeywordShapes25To31()
    ensures forall i | 25 <= i < 31 :: MacroShape(Keywords[i]).Some?
  {
  }

  lemma KeywordShapes31To37()
    ensures forall i | 31 <= i < |Keywords| :: MacroShape(Keywords[i]).Some?
  {
  }

  /** Every macro keyword the lexer knows has an expansion, and nothing else has one. */
  lemma MacroShapeCoversKeywords(w: string)
    ensures MacroShape(w).Some? <==> w in Keywords
  {
    if w in Keywords {
      KeywordShapes0To12();
      KeywordShapes12To19();
      KeywordShapes19To25();
      KeywordShapes25To31();
      KeywordShapes31To37();
      var i :| 0 <= i < |Keywords| && Keywords[i] == w;
    }
  }

  /** CV1 and CA3 are two-operand macros wrapped in a square root. */
  lemma SquareRootEntries()
    ensures MacroShape("CV1") == Some(TwoParam(Mul, true))
    ensures MacroShape("CA3") == Some(TwoParam(Div, true))
  {
  }

  /** Only CV1 and CA3 are wrapped in a square root. */
  lemma SquareRootMacros(w: string)
    ensures MacroShape(w).Some? && MacroShape(w).value.TwoParam? && MacroShape(w).value.sqrt
            <==> w == "CV1" || w == "CA3"
  {
    SquareRootEntries();
  }

  /** A name that is not a macro keyword is a syntax error. */
  lemma MacroNeedsKeyword(T: seq<Token>, i: nat)
    requires 1 <= i <= |T| && Cur(T, i).value !in Keywords
    ensures ParseMacro(T, i) == Err(SyntaxError)
  {
    MacroShapeCoversKeywords(Cur(T, i).value);
  }

  /** The five tokens `( a , b )` after a two-operand macro name. */
  predicate TwoOperands(T: seq<Token>, i: nat) {
    i + 5 <= |T| && T[i].kind == DelLParen && IsOperand(T[i + 1].kind) && T[i + 2].kind == DelComma
    && IsOperand(T[i + 3].kind) && T[i + 4].kind == DelRParen
  }

  /** The three tokens `( a )` after a one-operand macro name. */
  predicate OneOperand(T: seq<Token>, i: nat) {
    i + 3 <= |T| && T[i].kind == DelLParen && IsOperand(T[i + 1].kind) && T[i + 2].kind == DelRParen
  }

  /** A two-operand macro parses exactly when `( a , b )` follows the name. */
  lemma TwoParamShape(T: seq<Token>, i: nat, op: MacroOp)
    requires 1 <= i <= |T| && Cur(T, i).kind == Keyword
    ensures ParseTwoParam(T, i, op)
            == if TwoOperands(T, i) then Ok(Parsed(EcKeyword(T[i + 1].value, op, T[i + 3].value), Adv(T, i + 5)))
               else Err(SyntaxError)
  {
    if TwoOperands(T, i) {
      assert Expect(T, Adv(T, i), DelLParen) == Ok(i + 2);
      assert Operand(T, i + 2) == Ok(Parsed(T[i + 1].value, i + 3));
      assert Expect(T, i + 3, DelComma) == Ok(i + 4);
      assert Operand(T, i + 4) == Ok(Parsed(T[i + 3].value, i + 5));
    } else {
      TwoParamRejects(T, i, op);
    }
  }

  /** Without `( a , b )` after the name, a two-operand macro is a syntax error. */
  lemma TwoParamRejects(T: seq<Token>, i: nat, op: MacroOp)
    requires 1 <= i <= |T| && Cur(T, i).kind == Keyword && !TwoOperands(T, i)
    ensures ParseTwoParam(T, i, op) == Err(SyntaxError)
  {
    if i == |T| {
      assert Expect(T, i, DelLParen) == Err(SyntaxError);
    } else if T[i].kind != DelLParen {
      assert Expect(T, i + 1, DelLParen) == Err(SyntaxError);
    } else if i + 1 == |T| {
      assert Expect(T, i + 1, DelLParen) == Ok(i + 1);
      assert Operand(T, i + 1) == Err(SyntaxError);
    } else if !IsOperand(T[i + 1].kind) {
      assert Expect(T, i + 1, DelLParen) == Ok(i + 2);
      assert Operand(T, i + 2) == Err(SyntaxError);
    } else {
      OpenedTwoParam(T, i, op);
      SecondOperandRejects(T, i, op);
    }
  }

  /** After `( a` a two-operand macro goes on with its second operand. */
  lemma OpenedTwoParam(T: seq<Token>, i: nat, op: MacroOp)
    requires i + 2 <= |T| && 1 <= i && T[i].kind == DelLParen && IsOperand(T[i + 1].kind)
    ensures ParseTwoParam(T, i, op) == SecondParam(T, Adv(T, i + 2), T[i + 1].value, op)
  {
    assert Expect(T, i + 1, DelLParen) == Ok(i + 2);
    assert Operand(T, i + 2) == Ok(Parsed(T[i + 1].value, Adv(T, i + 2)));
  }

  /** `( a` followed by anything but `, b )` is a syntax error. */
  lemma SecondOperandRejects(T: seq<Token>, i: nat, op: MacroOp)
    requires i + 2 <= |T| && 1 <= i && T[i].kind == DelLParen && IsOperand(T[i + 1].kind) && !TwoOperands(T, i)
    ensures SecondParam(T, Adv(T, i + 2), T[i + 1].value, op) == Err(SyntaxError)
  {
    if i + 2 == |T| {
      assert Expect(T, i + 2, DelComma) == Err(SyntaxError);
    } else if T[i + 2].kind != DelComma {
      assert Expect(T, i + 3, DelComma) == Err(SyntaxError);
    } else if i + 3 == |T| {
      assert Operand(T, i + 3) == Err(SyntaxError);
    } else if !IsOperand(T[i + 3].kind) {
      assert Operand(T, i + 4) == Err(SyntaxError);
    } else if i + 4 == |T| {
      assert Expect(T, i + 4, DelRParen) == Err(SyntaxError);
    } else {
      assert Expect(T, i + 5, DelRParen) == Err(SyntaxError);
    }
  }

  /** A one-operand macro parses exactly when `( a )` follows the name. */
  lemma OneParamShape(T: seq<Token>, i: nat, op: MacroOp, constant: string)
    requires 1 <= i <= |T| && Cur(T, i).kind == Keyword
    ensures ParseOneParam(T, i, op, constant)
            == if OneOperand(T, i) then Ok(Parsed(EcKeyword(T[i + 1].value, op, constant), Adv(T, i + 3)))
               else Err(SyntaxError)
  {
    if i < |T| && T[i].kind == DelLParen {
      assert Adv(T, i) == i + 1;
    }
  }

  // ---------------------------------------------------------------------
  // Loops
  // ---------------------------------------------------------------------

  /**
   * The declaration branch of a `for` header tests kind names no kind
   * carries, so a `for` loop can only start from a list of names.
   */
  lemma ForInitIsAList(T: seq<Token>, i: nat)
    requires 1 <= i <= |T|
    ensures ParseForInit(T, i).Ok? ==> ParseForInit(T, i).value.node.InitList?
    ensures Cur(T, i).kind in TokenDataTypes ==> ParseForInit(T, i) == Err(SyntaxError)
  {
    var k := Cur(T, i).kind;
    NoKindNamedDtInt(k);
    NoKindNamedDtFloat(k);
    if k != Identifier {
      assert ParseForInit(T, i) == Err(SyntaxError);
    }
  }

  /**
   * A step that is not `name ++` or `name --` stops at the `)` test, so the
   * unbound step is never read.
   */
  lemma ForStepIsBound(T: seq<Token>, i: nat)
    requires 1 <= i <= |T| && ParseForHeader(T, i).Ok?
    ensures ParseForHeader(T, i).value.node.step.Some?
  {
    var init := ParseForInit(T, Adv(T, i)).value;
    var b := Adv(T, init.next);
    assert ParseForRest(T, b).Ok?;
    var cond := ParseLogicalOr(T, b).value;
    var step := ParseForStep(T, Adv(T, cond.next)).value;
    assert Cur(T, step.next).kind == DelRParen;
  }

  // ---------------------------------------------------------------------
  // Statements, bodies and programs
  // ---------------------------------------------------------------------

  predicate Leads(t: Token, word: string) {
    t.kind == ReservedWord && t.value == word
  }

  /** The statements that must end with `;`, which is consumed. */
  predicate NeedsSemicolon(t: Token) {
    t.kind in TokenDataTypes || t.kind == Identifier || Leads(t, "Print") || Leads(t, "PrintLine")
    || Leads(t, "return") || Leads(t, "do")
  }

  /**
   * Declarations, name-led statements, output, return and `do` loops end
   * with a `;`; `while`, `for` and `if` need none.
   */
  lemma StatementTerminators(T: seq<Token>, i: nat)
    requires 1 <= i <= |T| && ParseStatement(T, i).Ok? && NeedsSemicolon(Cur(T, i))
    ensures exists k :: i < k <= |T| && Cur(T, k).kind == DelSemicolon && ParseStatement(T, i).value.next == Adv(T, k)
  {
    var t := Cur(T, i);
    var r: Outcome<Stmt> :=
      if t.kind in TokenDataTypes then ParseDeclaration(T, i)
      else if t.kind == Identifier then ParseAssignmentUnary(T, i)
      else if Leads(t, "Print") || Leads(t, "PrintLine") then ParseOutput(T, i)
      else if Leads(t, "return") then ParseReturn(T, i)
      else ParseDoWhile(T, i);
    assert ParseStatement(T, i) == Terminated(T, r);
    var k := r.value.next;
    assert Cur(T, k).kind == DelSemicolon && ParseStatement(T, i).value.next == Adv(T, k);
  }

  /** At the last token the cursor cannot move, so no statement can be read there. */
  lemma StuckCursorFails(T: seq<Token>)
    requires 1 <= |T|
    ensures ParseStatement(T, |T|).Err?
  {
    var n := |T|;
    var t := Cur(T, n);
    assert Adv(T, n) == n;
    if t.kind == Identifier {
      assert Peek(T, n) == None;
    } else if t.kind == ReservedWord {
      assert ParseCondition(T, n).Err?;
      assert ParseBlock(T, n).Err?;
      assert ParseForHeader(T, n).Err?;
    }
  }

  /** A body that starts at the last token is empty and closed by it. */
  lemma StuckCursorEmptyBody(T: seq<Token>)
    requires 1 <= |T| && ParseBody(T, |T|).Ok?
    ensures T[|T| - 1].kind == DelRBrace && ParseBody(T, |T|).value.node == Body([])
  {
    if T[|T| - 1].kind != DelRBrace {
      StuckCursorFails(T);
    }
  }

  /**
   * An empty list, a first token other than `Main` or a second token
   * other than `{` is a syntax error.
   */
  lemma ProgramRejects(T: seq<Token>)
    requires |T| == 0 || T[0].value != "Main" || |T| == 1 || T[1].kind != DelLBrace
    ensures ParseProgram(T) == Err(SyntaxError)
  {
    if |T| > 0 && T[0].value == "Main" {
      assert ExpectValue(T, 1, "Main") == Ok(Adv(T, 1));
      if |T| == 1 {
        if T[0].kind == DelLBrace {
          assert ParseStatement(T, 1) == Err(SyntaxError);
          assert ParseBody(T, 1) == Err(SyntaxError);
        }
        assert ParseBlock(T, 1) == Err(SyntaxError);
      } else {
        assert ParseBlock(T, 2) == Err(SyntaxError);
      }
    }
  }

  /** A program is `Main { body }`, the body closed by `}`. */
  lemma ProgramShape(T: seq<Token>)
    requires ParseProgram(T).Ok?
    ensures && 2 <= |T| && T[0].value == "Main" && T[1].kind == DelLBrace
            && ParseBody(T, Adv(T, 2)).Ok?
            && ParseProgram(T).value.body == ParseBody(T, Adv(T, 2)).value.node
            && Cur(T, ParseBody(T, Adv(T, 2)).value.next).kind == DelRBrace
  {
    if |T| < 2 || T[0].value != "Main" || T[1].kind != DelLBrace {
      ProgramRejects(T);
    }
    assert ExpectValue(T, 1, "Main") == Ok(2);
  }

  // ---------------------------------------------------------------------
  // Loops and conditionals
  // ---------------------------------------------------------------------

  /**
   * Position `n` lies just past a `}` that was consumed, or on it when it is
   * the last token: there the cursor stands still.
   */
  predicate ClosedByBrace(T: seq<Token>, n: nat) {
    exists k :: 1 <= k <= |T| && Cur(T, k).kind == DelRBrace && n == Adv(T, k)
  }

  /** Position `n` lies just past a `)` that was consumed, or on it when it is the last token. */
  predicate ClosedByParen(T: seq<Token>, n: nat) {
    exists k :: 1 <= k <= |T| && Cur(T, k).kind == DelRParen && n == Adv(T, k)
  }

  /** `( c )` needs the `(`, a whole condition and the `)` after it, and ends at that `)`. */
  lemma ConditionShape(T: seq<Token>, i: nat)
    requires 1 <= i <= |T|
    ensures ParseCondition(T, i).Ok? <==>
              && Cur(T, i).kind == DelLParen && ParseLogicalOr(T, Adv(T, i)).Ok?
              && Cur(T, ParseLogicalOr(T, Adv(T, i)).value.next).kind == DelRParen
    ensures ParseCondition(T, i).Ok? ==>
              var e := ParseLogicalOr(T, Adv(T, i)).value;
              ParseCondition(T, i).value == Parsed(e.node, Adv(T, e.next)) && ClosedByParen(T, Adv(T, e.next))
  {
    if ParseCondition(T, i).Ok? {
      var e := ParseLogicalOr(T, Adv(T, i)).value;
      assert Cur(T, e.next).kind == DelRParen;
    }
  }

  /** `{ body }` needs the `{`, and ends just past the `}` that closes the body (on it at the last token). */
  lemma BlockShape(T: seq<Token>, i: nat)
    requires 1 <= i <= |T|
    ensures ParseBlock(T, i).Ok? <==> Cur(T, i).kind == DelLBrace && ParseBody(T, Adv(T, i)).Ok?
    ensures ParseBlock(T, i).Ok? ==>
              var b := ParseBody(T, Adv(T, i)).value;
              ParseBlock(T, i).value == Parsed(b.node, Adv(T, b.next)) && ClosedByBrace(T, Adv(T, b.next))
  {
    if ParseBlock(T, i).Ok? {
      var b := ParseBody(T, Adv(T, i)).value;
      assert Cur(T, b.next).kind == DelRBrace;
    }
  }

  /** `while ( c ) { b }` is the loop of `c` over `b`, ended by the `}`. */
  lemma WhileShape(T: seq<Token>, i: nat)
    requires 1 <= i <= |T| && Cur(T, i).kind == ReservedWord
    ensures var c := ParseCondition(T, Adv(T, i));
            ParseWhile(T, i).Ok? <==> c.Ok? && ParseBlock(T, c.value.next).Ok?
    ensures ParseWhile(T, i).Ok? ==>
              var c := ParseCondition(T, Adv(T, i)).value;
              var b := ParseBlock(T, c.next).value;
              && Cur(T, Adv(T, i)).kind == DelLParen && Cur(T, c.next).kind == DelLBrace
              && ParseWhile(T, i).value == Parsed(Loop("while_loop", c.node, b.node), b.next)
              && ClosedByBrace(T, b.next)
  {
    var c := ParseCondition(T, Adv(T, i));
    if c.Ok? {
      BlockShape(T, c.value.next);
    }
  }

  /**
   * `do { b } while ( c )`: the word after the body is matched by its text
   * whatever its kind, and the loop ends with the condition's `)`, where the
   * statement's `;` is then expected.
   */
  lemma DoWhileShape(T: seq<Token>, i: nat)
    requires 1 <= i <= |T| && Cur(T, i).kind == ReservedWord
    ensures ParseDoWhile(T, i).Ok? <==>
              var b := ParseBlock(T, Adv(T, i));
              b.Ok? && Cur(T, b.value.next).value == "while" && ParseCondition(T, Adv(T, b.value.next)).Ok?
    ensures ParseDoWhile(T, i).Ok? ==>
              var b := ParseBlock(T, Adv(T, i)).value;
              var c := ParseCondition(T, Adv(T, b.next)).value;
              && Cur(T, Adv(T, b.next)).kind == DelLParen
              && ParseDoWhile(T, i).value == Parsed(Loop("do_while_loop", c.node, b.node), c.next)
              && ClosedByParen(T, c.next)
  {
    if ParseDoWhile(T, i).Ok? {
      var b := ParseBlock(T, Adv(T, i)).value;
      ConditionShape(T, Adv(T, b.next));
    }
  }

  /** The alternatives `later` read after those in `alt`. */
  function Joined(alt: Alternatives, later: Alternatives): (j: Alternatives)
    ensures |j.conditions| == |alt.conditions| + |later.conditions|
    ensures |j.bodies| == |alt.bodies| + |later.bodies|
    ensures j.elseBody.None? <==> alt.elseBody.None? && later.elseBody.None?
  {
    Alternatives(alt.conditions + later.conditions, alt.bodies + later.bodies,
                 if later.elseBody.Some? then later.elseBody else alt.elseBody)
  }

  /** One round of the loop over alternatives at an `elseif`. */
  lemma ElseifRound(T: seq<Token>, i: nat, alt: Alternatives)
    requires 1 <= i <= |T| && Leads(Cur(T, i), "elseif")
    ensures var cond := ParseCondition(T, Adv(T, i));
            cond.Err? ==> ParseAlternatives(T, i, alt) == Err(cond.error)
    ensures var cond := ParseCondition(T, Adv(T, i));
            cond.Ok? ==>
              var body := ParseBlock(T, cond.value.next);
              && (body.Err? ==> ParseAlternatives(T, i, alt) == Err(body.error))
              && (body.Ok? ==>
                    ParseAlternatives(T, i, alt) ==
                      ParseAlternatives(T, body.value.next,
                        alt.(conditions := alt.conditions + [cond.value.node], bodies := alt.bodies + [body.value.node])))
  {
  }

  /** One round of the loop over alternatives at an `else`. */
  lemma ElseRound(T: seq<Token>, i: nat, alt: Alternatives)
    requires 1 <= i <= |T| && Leads(Cur(T, i), "else")
    ensures var body := ParseBlock(T, Adv(T, i));
            && (body.Err? ==> ParseAlternatives(T, i, alt) == Err(body.error))
            && (body.Ok? ==>
                  ParseAlternatives(T, i, alt) == ParseAlternatives(T, body.value.next, alt.(elseBody := Some(body.value.node))))
  {
  }

  /**
   * `r` is the outcome `r0` of a loop started with no alternatives, with
   * `alt` put in front of what it read.
   */
  predicate Accumulated(r: Outcome<Alternatives>, r0: Outcome<Alternatives>, alt: Alternatives) {
    && (r.Ok? <==> r0.Ok?)
    && (r.Err? ==> r.error == r0.error)
    && (r.Ok? ==> r.value == Parsed(Joined(alt, r0.value.node), r0.value.next))
  }

  /** What AlternativesAccumulate states of the loop started at `i` with `alt`. */
  predicate AccumulatesAt(T: seq<Token>, i: nat, alt: Alternatives)
    requires 1 <= i <= |T|
  {
    Accumulated(ParseAlternatives(T, i, alt), ParseAlternatives(T, i, Alternatives([], [], None)), alt)
  }

  /** Putting `alt` then an `elseif` part in front is putting `alt` in front of that part. */
  lemma ElseifTransfer(rA: Outcome<Alternatives>, rOne: Outcome<Alternatives>, r0: Outcome<Alternatives>,
                       alt: Alternatives, c: Expr, b: Body)
    requires Accumulated(rA, r0, Alternatives(alt.conditions + [c], alt.bodies + [b], alt.elseBody))
    requires Accumulated(rOne, r0, Alternatives([c], [b], None))
    ensures Accumulated(rA, rOne, alt)
  {
    if r0.Ok? {
      var l := r0.value.node;
      assert (alt.conditions + [c]) + l.conditions == alt.conditions + ([c] + l.conditions);
      assert (alt.bodies + [b]) + l.bodies == alt.bodies + ([b] + l.bodies);
    }
  }

  /** Putting `alt` then an `else` part in front is putting `alt` in front of that part. */
  lemma ElseTransfer(rA: Outcome<Alternatives>, rOne: Outcome<Alternatives>, r0: Outcome<Alternatives>,
                     alt: Alternatives, b: Body)
    requires Accumulated(rA, r0, alt.(elseBody := Some(b)))
    requires Accumulated(rOne, r0, Alternatives([], [], Some(b)))
    ensures Accumulated(rA, rOne, alt)
  {
    if r0.Ok? {
      var l := r0.value.node;
      assert [] + l.conditions == l.conditions;
      assert [] + l.bodies == l.bodies;
    }
  }

  /**
   * The loop over alternatives adds to what it is given: the `elseif`
   * parts it reads follow the earlier ones in order, an `else` it reads
   * replaces an earlier one, and it stops at the same token and fails the
   * same way whatever it was given.
   */
  lemma {:induction false} AlternativesAccumulate(T: seq<Token>, i: nat, alt: Alternatives)
    requires 1 <= i <= |T|
    ensures var r := ParseAlternatives(T, i, alt);
            var r0 := ParseAlternatives(T, i, Alternatives([], [], None));
            && (r.Ok? <==> r0.Ok?)
            && (r.Err? ==> r.error == r0.error)
            && (r.Ok? ==> r.value == Parsed(Joined(alt, r0.value.node), r0.value.next))
    decreases |T| - i, 1
  {
    var t := Cur(T, i);
    var none := Alternatives([], [], None);
    if Leads(t, "elseif") {
      var cond := ParseCondition(T, Adv(T, i));
      if cond.Ok? && ParseBlock(T, cond.value.next).Ok? {
        ElseifAccumulates(T, i, alt, cond.value, ParseBlock(T, cond.value.next).value);
      } else {
        ElseifRound(T, i, alt);
        ElseifRound(T, i, none);
      }
    } else if Leads(t, "else") {
      if ParseBlock(T, Adv(T, i)).Ok? {
        ElseAccumulates(T, i, alt);
      } else {
        ElseRound(T, i, alt);
        ElseRound(T, i, none);
      }
    } else {
      assert ParseAlternatives(T, i, alt) == Ok(Parsed(alt, i));
      assert ParseAlternatives(T, i, none) == Ok(Parsed(none, i));
      assert Joined(alt, none) == alt;
    }
  }

  /** An `elseif` part read in full hands its condition and body on to the rest of the loop. */
  lemma ElseifContinues(T: seq<Token>, i: nat, alt: Alternatives, c: Parsed<Expr>, b: Parsed<Body>)
    requires 1 <= i <= |T| && Leads(Cur(T, i), "elseif")
    requires ParseCondition(T, Adv(T, i)) == Ok(c) && 1 <= c.next <= |T| && ParseBlock(T, c.next) == Ok(b)
    ensures ParseAlternatives(T, i, alt) ==
              ParseAlternatives(T, b.next, Alternatives(alt.conditions + [c.node], alt.bodies + [b.node], alt.elseBody))
  {
  }

  /** The same, for a loop started with no alternatives. */
  lemma ElseifStarts(T: seq<Token>, i: nat, c: Parsed<Expr>, b: Parsed<Body>)
    requires 1 <= i <= |T| && Leads(Cur(T, i), "elseif")
    requires ParseCondition(T, Adv(T, i)) == Ok(c) && 1 <= c.next <= |T| && ParseBlock(T, c.next) == Ok(b)
    ensures ParseAlternatives(T, i, Alternatives([], [], None)) ==
              ParseAlternatives(T, b.next, Alternatives([c.node], [b.node], None))
  {
    var none := Alternatives([], [], None);
    ElseifContinues(T, i, none, c, b);
    FirstElseif(none, c.node, b.node);
  }

  lemma FirstElseif(none: Alternatives, c: Expr, b: Body)
    requires none == Alternatives([], [], None)
    ensures Alternatives(none.conditions + [c], none.bodies + [b], none.elseBody) == Alternatives([c], [b], None)
  {
    assert none.conditions + [c] == [c];
    assert none.bodies + [b] == [b];
  }

  lemma {:induction false} ElseifAccumulates(T: seq<Token>, i: nat, alt: Alternatives, c: Parsed<Expr>, b: Parsed<Body>)
    requires 1 <= i <= |T| && Leads(Cur(T, i), "elseif")
    requires ParseCondition(T, Adv(T, i)) == Ok(c) && 1 <= c.next <= |T| && ParseBlock(T, c.next) == Ok(b)
    ensures AccumulatesAt(T, i, alt)
    decreases |T| - i, 0
  {
    var none := Alternatives([], [], None);
    var alt' := Alternatives(alt.conditions + [c.node], alt.bodies + [b.node], alt.elseBody);
    var one := Alternatives([c.node], [b.node], None);
    ElseifContinues(T, i, alt, c, b);
    ElseifStarts(T, i, c, b);
    AlternativesAccumulate(T, b.next, alt');
    AlternativesAccumulate(T, b.next, one);
    ElseifTransfer(ParseAlternatives(T, b.next, alt'), ParseAlternatives(T, b.next, one),
                   ParseAlternatives(T, b.next, none), alt, c.node, b.node);
  }

  lemma {:induction false} ElseAccumulates(T: seq<Token>, i: nat, alt: Alternatives)
    requires 1 <= i <= |T| && Leads(Cur(T, i), "else") && ParseBlock(T, Adv(T, i)).Ok?
    ensures AccumulatesAt(T, i, alt)
    decreases |T| - i, 0
  {
    var none := Alternatives([], [], None);
    var b := ParseBlock(T, Adv(T, i)).value;
    var alt' := alt.(elseBody := Some(b.node));
    var one := Alternatives([], [], Some(b.node));
    ElseRound(T, i, alt);
    ElseRound(T, i, none);
    AlternativesAccumulate(T, b.next, alt');
    AlternativesAccumulate(T, b.next, one);
    ElseTransfer(ParseAlternatives(T, b.next, alt'), ParseAlternatives(T, b.next, one),
                 ParseAlternatives(T, b.next, none), alt, b.node);
  }

  /** Each `elseif` condition is read with its body, so the two lists stay paired. */
  lemma {:induction false} AlternativesPaired(T: seq<Token>, i: nat)
    requires 1 <= i <= |T| && ParseAlternatives(T, i, Alternatives([], [], None)).Ok?
    ensures var a := ParseAlternatives(T, i, Alternatives([], [], None)).value.node;
            |a.conditions| == |a.bodies|
    decreases |T| - i
  {
    var t := Cur(T, i);
    var none := Alternatives([], [], None);
    if Leads(t, "elseif") {
      ElseifRound(T, i, none);
      var c := ParseCondition(T, Adv(T, i)).value;
      var b := ParseBlock(T, c.next).value;
      ElseifStarts(T, i, c, b);
      AlternativesAccumulate(T, b.next, Alternatives([c.node], [b.node], None));
      AlternativesPaired(T, b.next);
    } else if Leads(t, "else") {
      ElseRound(T, i, none);
      var b := ParseBlock(T, Adv(T, i)).value;
      AlternativesAccumulate(T, b.next, none.(elseBody := Some(b.node)));
      AlternativesPaired(T, b.next);
    } else {
      assert ParseAlternatives(T, i, none) == Ok(Parsed(none, i));
    }
  }

  /**
   * An `else` part replaces any `else` read before it, and is itself
   * replaced by a later one.
   */
  lemma ElseReplacesEarlier(T: seq<Token>, i: nat, alt: Alternatives)
    requires 1 <= i <= |T| && Leads(Cur(T, i), "else") && ParseAlternatives(T, i, alt).Ok?
    ensures ParseBlock(T, Adv(T, i)).Ok?
    ensures var b := ParseBlock(T, Adv(T, i)).value;
            && ParseAlternatives(T, b.next, Alternatives([], [], None)).Ok?
            && var later := ParseAlternatives(T, b.next, Alternatives([], [], None)).value.node;
               ParseAlternatives(T, i, alt).value.node.elseBody ==
                 if later.elseBody.Some? then later.elseBody else Some(b.node)
  {
    var b := ParseBlock(T, Adv(T, i)).value;
    AlternativesAccumulate(T, b.next, alt.(elseBody := Some(b.node)));
  }

  /** The loop over alternatives stops where it started or just past a `}`. */
  lemma {:induction false} AlternativesClosed(T: seq<Token>, i: nat, alt: Alternatives)
    requires 1 <= i <= |T| && ParseAlternatives(T, i, alt).Ok?
    ensures var n := ParseAlternatives(T, i, alt).value.next;
            n == i || ClosedByBrace(T, n)
    decreases |T| - i
  {
    var t := Cur(T, i);
    if t.kind == ReservedWord && t.value == "elseif" {
      var cond := ParseCondition(T, Adv(T, i)).value;
      var body := ParseBlock(T, cond.next).value;
      BlockShape(T, cond.next);
      AlternativesClosed(T, body.next, alt.(conditions := alt.conditions + [cond.node], bodies := alt.bodies + [body.node]));
    } else if t.kind == ReservedWord && t.value == "else" {
      var body := ParseBlock(T, Adv(T, i)).value;
      BlockShape(T, Adv(T, i));
      AlternativesClosed(T, body.next, alt.(elseBody := Some(body.node)));
    }
  }

  /**
   * `if ( c ) { b }` followed by its alternatives: the `elseif` parts in the
   * order read, each condition with its body, the last `else` if any, and
   * the statement ends just past a `}`.
   */
  lemma IfShape(T: seq<Token>, i: nat)
    requires 1 <= i <= |T| && Cur(T, i).kind == ReservedWord && ParseIf(T, i).Ok?
    ensures ParseCondition(T, Adv(T, i)).Ok?
    ensures ParseBlock(T, ParseCondition(T, Adv(T, i)).value.next).Ok?
    ensures var c := ParseCondition(T, Adv(T, i)).value;
            var b := ParseBlock(T, c.next).value;
            && ParseAlternatives(T, b.next, Alternatives([], [], None)).Ok?
            && var a := ParseAlternatives(T, b.next, Alternatives([], [], None)).value;
               && ParseIf(T, i).value ==
                    Parsed(Conditional(c.node, b.node, a.node.conditions, a.node.bodies, a.node.elseBody), a.next)
               && |a.node.conditions| == |a.node.bodies|
               && ClosedByBrace(T, a.next)
  {
    var c := ParseCondition(T, Adv(T, i)).value;
    var b := ParseBlock(T, c.next).value;
    BlockShape(T, c.next);
    AlternativesPaired(T, b.next);
    AlternativesClosed(T, b.next, Alternatives([], [], None));
  }

  /** No token of `T` is the reserved word `elseif`. */
  predicate NoElseifWord(T: seq<Token>) {
    forall t | t in T :: !Leads(t, "elseif")
  }

  /** Without an `elseif` reserved word the loop over alternatives adds no condition. */
  lemma {:induction false} AlternativesWithoutElseif(T: seq<Token>, i: nat, alt: Alternatives)
    requires 1 <= i <= |T| && NoElseifWord(T) && ParseAlternatives(T, i, alt).Ok?
    ensures var a := ParseAlternatives(T, i, alt).value.node;
            a.conditions == alt.conditions && a.bodies == alt.bodies
    decreases |T| - i
  {
    var t := Cur(T, i);
    assert t in T;
    if t.kind == ReservedWord && t.value == "else" {
      var body := ParseBlock(T, Adv(T, i)).value;
      AlternativesWithoutElseif(T, body.next, alt.(elseBody := Some(body.node)));
    }
  }

  /** Without an `elseif` reserved word an `if` statement has no `elseif` part. */
  lemma IfWithoutElseif(T: seq<Token>, i: nat)
    requires 1 <= i <= |T| && Cur(T, i).kind == ReservedWord && NoElseifWord(T) && ParseIf(T, i).Ok?
    ensures ParseIf(T, i).value.node.elifConditions == [] && ParseIf(T, i).value.node.elifBodies == []
  {
    IfShape(T, i);
    var c := ParseCondition(T, Adv(T, i)).value;
    var b := ParseBlock(T, c.next).value;
    AlternativesWithoutElseif(T, b.next, Alternatives([], [], None));
  }

  /**
   * The lexer never yields the reserved word `elseif`, so on lexed input
   * every `if` statement has no `elseif` part.
   */
  lemma LexedIfHasNoElseif(s: string, i: nat)
    requires LexSpec.Tokenize(s).Ok?
    requires var T := LexSpec.Tokenize(s).value;
             1 <= i <= |T| && Cur(T, i).kind == ReservedWord && ParseIf(T, i).Ok?
    ensures var T := LexSpec.Tokenize(s).value;
            ParseIf(T, i).value.node.elifConditions == [] && ParseIf(T, i).value.node.elifBodies == []
  {
    LexerProps.ElseifNeverLexed(s);
    IfWithoutElseif(LexSpec.Tokenize(s).value, i);
  }

  /**
   * A statement led by `while`, `for` or `if` is that construct alone: no
   * `;` is expected after it (each ends just past a `}`, by WhileShape,
   * ForShape and IfShape).
   */
  lemma CompoundStatements(T: seq<Token>, i: nat)
    requires 1 <= i <= |T|
    ensures Leads(Cur(T, i), "while") ==> ParseStatement(T, i) == ParseWhile(T, i)
    ensures Leads(Cur(T, i), "for") ==> ParseStatement(T, i) == ParseFor(T, i)
    ensures Leads(Cur(T, i), "if") ==> ParseStatement(T, i) == ParseIf(T, i)
  {
    assert Leads(Cur(T, i), "while") || Leads(Cur(T, i), "for") || Leads(Cur(T, i), "if") ==>
           Cur(T, i).kind !in TokenDataTypes;
  }

  /** `for ( h ) { b }` keeps the header's parts and ends at the `}`; its step is always bound. */
  lemma ForShape(T: seq<Token>, i: nat)
    requires 1 <= i <= |T| && Cur(T, i).kind == ReservedWord && ParseFor(T, i).Ok?
    ensures ParseForHeader(T, Adv(T, i)).Ok?
    ensures var h := ParseForHeader(T, Adv(T, i)).value;
            && h.node.step.Some?
            && ParseBlock(T, h.next).Ok?
            && var b := ParseBlock(T, h.next).value;
               && ParseFor(T, i).value == Parsed(For(h.node.init, h.node.condition, h.node.step.value, b.node), b.next)
               && ClosedByBrace(T, b.next)
  {
    var h := ParseForHeader(T, Adv(T, i)).value;
    BlockShape(T, h.next);
  }
}
