/** Concrete inputs and what the lexer makes of them. */
module LexerExamples {
  import opened Wrappers
  import opened Constants
  import opened Tokens
  import opened LexSpec
  import opened ConstantsProps

  /** The number `42` of the declaration example. */
  lemma DeclarationNumber(s: string)
    requires s == "int x = 42;"
    ensures TokenStep(s, 8) == Emit(Token(LitInt, "42"), 10)
  {
    assert s[8] == '4' && s[9] == '2' && s[10] == ';';
    assert NumberEnd(s, 10, false) == 10;
    assert NumberEnd(s, 8, false) == 10;
    assert s[8..10] == "42";
  }

  /** The `=` and the final `;` of the declaration example. */
  lemma DeclarationSymbols(s: string)
    requires s == "int x = 42;"
    ensures TokenStep(s, 6) == Emit(Token(OpAss, "="), 7)
    ensures TokenStep(s, 10) == Emit(Token(DelSemicolon, ";"), 11)
  {
    assert s[6..7] == "=";
  }

  /** The tail `= 42;` of the declaration example. */
  lemma DeclarationTail(s: string)
    requires s == "int x = 42;"
    ensures Lex(s, 5, StartMode) == Ok([Token(OpAss, "="), Token(LitInt, "42"), Token(DelSemicolon, ";")])
  {
    var m := StartMode;
    var semi, num, ass := Token(DelSemicolon, ";"), Token(LitInt, "42"), Token(OpAss, "=");
    DeclarationSymbols(s);
    DeclarationNumber(s);
    LexToken(s, 10, m, 11, m);
    assert Lex(s, 11, m) == Ok([]);
    assert [semi] + [] == [semi];
    LexToken(s, 8, m, 10, m);
    LexWhitespace(s, 7, m, 8);
    assert [num] + [semi] == [num, semi];
    LexToken(s, 6, m, 7, m);
    LexWhitespace(s, 5, m, 6);
    assert [ass] + [num, semi] == [ass, num, semi];
  }

  /** Names are looked up in the data types, the Booleans, the keywords and the reserved words, in that order. */
  lemma ClassifyDataType()
    ensures Classify("int") == DatatypeInt && Classify("string") == DatatypeStr
  {
  }

  lemma ClassifyBoolean()
    ensures Classify("true") == LitBoolTrue && Classify("false") == LitBoolFalse
  {
  }

  lemma ClassifyKeyword()
    ensures Classify("CV1") == Keyword && Classify("CHTM") == Keyword
  {
    assert "CV1" !in DataTypes && "CV1" !in BoolTypes && Keywords[0] == "CV1";
    assert "CHTM" !in DataTypes && "CHTM" !in BoolTypes && Keywords[31] == "CHTM";
  }

  lemma ClassifyReservedWord()
    ensures Classify("while") == ReservedWord && Classify("Main") == ReservedWord
  {
    if "while" in Keywords {
      KeywordsStartWithC("while");
    }
    if "Main" in Keywords {
      KeywordsStartWithC("Main");
    }
  }

  /** `elseif`, which the grammar uses, is in no table and lexes as a name. */
  lemma ClassifyIdentifier()
    ensures Classify("x") == Identifier && Classify("elseif") == Identifier
  {
    if "x" in Keywords || "x" in ReservedWords {
      if "x" in Keywords {
        KeywordsStartWithC("x");
      } else {
        OthersDoNotStartWithC("x");
      }
    }
    if "elseif" in Keywords {
      KeywordsStartWithC("elseif");
    }
  }

  /** The name `x` of the declaration example, classified as an identifier. */
  lemma DeclarationName(s: string)
    requires s == "int x = 42;"
    ensures TokenStep(s, 4) == Emit(Token(Identifier, "x"), 5)
  {
    ClassifyIdentifier();
    assert s[4] == 'x' && s[5] == ' ';
    assert Span(s, 5, IsNameChar) == 5;
    assert Span(s, 4, IsNameChar) == 5;
    assert s[4..5] == "x";
  }

  /** The tail ` x = 42;` of the declaration example. */
  lemma DeclarationNameAndTail(s: string)
    requires s == "int x = 42;"
    ensures Lex(s, 3, StartMode)
            == Ok([Token(Identifier, "x"), Token(OpAss, "="), Token(LitInt, "42"), Token(DelSemicolon, ";")])
  {
    var m := StartMode;
    var rest := [Token(OpAss, "="), Token(LitInt, "42"), Token(DelSemicolon, ";")];
    var x := Token(Identifier, "x");
    DeclarationTail(s);
    DeclarationName(s);
    LexToken(s, 4, m, 5, m);
    LexWhitespace(s, 3, m, 4);
    assert [x] + rest == [x, rest[0], rest[1], rest[2]];
  }

  /** The data type `int` that opens the declaration example. */
  lemma DeclarationType(s: string)
    requires s == "int x = 42;"
    ensures TokenStep(s, 0) == Emit(Token(DatatypeInt, "int"), 3)
  {
    ClassifyDataType();
    assert s[0] == 'i' && s[1] == 'n' && s[2] == 't' && s[3] == ' ';
    assert Span(s, 3, IsNameChar) == 3;
    assert Span(s, 0, IsNameChar) == 3;
    assert s[0..3] == "int";
  }

  /** A declaration lexes to its data type, name, operator, number and semicolon. */
  lemma DeclarationExample(s: string)
    requires s == "int x = 42;"
    ensures Tokenize(s) == Ok([Token(DatatypeInt, "int"), Token(Identifier, "x"),
      Token(OpAss, "="), Token(LitInt, "42"), Token(DelSemicolon, ";")])
  {
    var m := StartMode;
    var rest := [Token(Identifier, "x"), Token(OpAss, "="), Token(LitInt, "42"), Token(DelSemicolon, ";")];
    var dt := Token(DatatypeInt, "int");
    DeclarationNameAndTail(s);
    DeclarationType(s);
    LexToken(s, 0, m, 3, m);
    assert [dt] + rest == [dt, rest[0], rest[1], rest[2], rest[3]];
  }

  lemma UnterminatedStringExample()
    ensures Tokenize("\"ab") == Err(UnterminatedString('"'))
  {
  }

  lemma UnmatchedDelimiterExample()
    ensures Tokenize("\"a'") == Err(UnmatchedDelimiter('"'))
  {
  }

  lemma GluedOperatorExample()
    ensures Tokenize("x +@ 1;") == Err(IllegalChar("+@"))
  {
    var s := "x +@ 1;";
    assert Span(s, 2, InIllegalRun) == 4;
    assert IllegalRun(s, 2) == "+@";
    assert Lex(s, 2, StartMode) == Err(IllegalChar("+@"));
    assert Span(s, 0, IsNameChar) == 1;
  }

  lemma UnterminatedCommentExample()
    ensures Tokenize("/* open") == Err(UnterminatedComment)
  {
    var s := "/* open";
    assert CommentEnd(s, 0) == Err(UnterminatedComment);
  }

  // The star of the opener may also close the comment: slash, star, slash is a whole comment.
  lemma CommentCloserOverlapsOpener()
    ensures Tokenize("/*/") == Ok([])
  {
    var s := "/*/";
    assert CommentEnd(s, 0) == Ok(3);
  }

  /** A `*` as the last character closes a comment, one index past the end. */
  lemma CommentClosedByFinalStar()
    ensures Tokenize("/* x *") == Ok([])
  {
    var s := "/* x *";
    assert ClosesComment(s, 5);
    assert CommentEnd(s, 0) == Ok(7);
  }

  /** `++` followed by `)` is reported with the whole run after it. */
  lemma IncrementBeforeParenExample()
    ensures Tokenize("i++)") == Err(IllegalChar("++)"))
  {
    var s := "i++)";
    assert Span(s, 0, IsNameChar) == 1;
    assert Span(s, 1, InIllegalRun) == 4;
    assert IllegalRun(s, 1) == "++)";
    assert TokenStep(s, 1) == Fail(IllegalChar("++)"));
  }

  /** `==` followed by any character stops the lexer. */
  lemma EqualityCrashExample()
    ensures Tokenize("a == b") == Err(LexCrash)
  {
    var s := "a == b";
    assert Span(s, 0, IsNameChar) == 1;
    assert TokenStep(s, 2) == Fail(LexCrash);
  }

  /** `==` at the very end of the text is an equality operator. */
  lemma EqualityAtEndExample()
    ensures Tokenize("==") == Ok([Token(OpEqt, "==")])
  {
    var s := "==";
    assert TokenStep(s, 0) == Emit(Token(OpEqt, "=="), 2);
    assert Lex(s, 2, StartMode) == Ok([]);
    assert [Token(OpEqt, "==")] + [] == [Token(OpEqt, "==")];
  }

  lemma LoneAmpersandExample()
    ensures Tokenize("a & b") == Err(IllegalChar("&"))
  {
    var s := "a & b";
    assert Span(s, 0, IsNameChar) == 1;
  }

  /** A semicolon must be followed by whitespace or end the text. */
  lemma SemicolonGlueExample()
    ensures Tokenize("a;b") == Err(IllegalChar(";b"))
  {
    var s := "a;b";
    assert Span(s, 0, IsNameChar) == 1;
    assert Span(s, 1, NotWhitespace) == 3;
    assert s[1..3] == ";b";
  }

  /** A number keeps its first dot only; the second one is an unlisted character. */
  lemma SecondDotExample()
    ensures Tokenize("1.2.3") == Err(IllegalChar("."))
  {
    var s := "1.2.3";
    assert NumberEnd(s, 0, false) == 3;
    assert TokenStep(s, 3) == Fail(IllegalChar("."));
  }

  /** An opening quote followed only by whitespace yields nothing. */
  lemma LoneQuoteExample()
    ensures Tokenize("\" ") == Ok([])
  {
  }
}
