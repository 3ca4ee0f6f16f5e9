/**
 * The lexer object: a cursor over the source text that the main loop and
 * the scanners advance one character at a time. Each method is proved to do
 * what the corresponding function of module LexSpec says about the text
 * that was still unread when it was called.
 */
module EcLexer {
  import opened Wrappers
  import opened Constants
  import opened Tokens
  import opened LexSpec

  /** The character at index `i`, or `None` past either end. */
  function CharAt(text: string, i: int): (c: Option<char>)
    ensures c.Some? <==> 0 <= i < |text|
    ensures c.Some? ==> c.value == text[i]
  {
    if 0 <= i < |text| then Some(text[i]) else None
  }

  /** A scanner's result and stopping index `cursor`, against the step the specification prescribes. */
  predicate Performed(st: Step, r: Result<Option<Token>, LexError>, cursor: int) {
    match st
    case Emit(t, n) => r == Ok(Some(t)) && cursor == n
    case Skip(n) => r == Ok(None) && cursor == n
    case Fail(e) => r == Err(e)
  }

  class Lexer {
    const text: string
    var pos: int
    var currentChar: Option<char>
    var inQuotes: bool
    var quoteCount: nat

    /** The current character is the one at `pos`; a closed block comment may leave `pos` one past the end. */
    ghost predicate Valid()
      reads this
    {
      0 <= pos <= |text| + 1 && currentChar == CharAt(text, pos)
    }

    /** The index of the current character, or the length of the text once it is consumed. */
    function Cursor(): (k: nat)
      reads this
      requires 0 <= pos
      ensures k <= |text|
    {
      if pos <= |text| then pos else |text|
    }

    constructor (text: string)
      ensures Valid() && this.text == text
      ensures pos == 0 && !inQuotes && quoteCount == 0
    {
      this.text := text;
      pos := -1;
      currentChar := None;
      new;
      IncrementPos();
      inQuotes := false;
      quoteCount := 0;
    }

    method IncrementPos()
      requires -1 <= pos <= |text|
      modifies this
      ensures pos == old(pos) + 1 && currentChar == CharAt(text, pos)
      ensures inQuotes == old(inQuotes) && quoteCount == old(quoteCount)
    {
      pos := pos + 1;
      currentChar := if pos < |text| then Some(text[pos]) else None;
    }

    /** Scans digits and at most one dot. */
    method MakeNumber() returns (t: Token)
      requires Valid() && pos < |text| && IsDigit(text[pos])
      modifies this
      ensures Valid() && inQuotes == old(inQuotes) && quoteCount == old(quoteCount)
      ensures pos == NumberEnd(text, old(pos), false)
      ensures t == NumberToken(text[old(pos)..pos])
    {
      ghost var p0 := pos;
      var numStr := "";
      var dotPresent := false;
      while currentChar.Some? && (IsDigit(currentChar.value) || currentChar.value == '.')
        invariant Valid() && p0 <= pos <= |text|
        invariant inQuotes == old(inQuotes) && quoteCount == old(quoteCount)
        invariant numStr == text[p0..pos]
        invariant dotPresent <==> '.' in numStr
        invariant NumberEnd(text, p0, false) == NumberEnd(text, pos, dotPresent)
        decreases |text| - pos
      {
        if currentChar.value == '.' {
          if dotPresent {
            break;
          }
          dotPresent := true;
          numStr := numStr + ".";
          assert numStr[|numStr| - 1] == '.';
        } else {
          ghost var before := numStr;
          numStr := numStr + [currentChar.value];
          assert '.' in numStr <==> '.' in before;
        }
        assert text[p0..pos + 1] == text[p0..pos] + [text[pos]];
        IncrementPos();
      }
      if !dotPresent {
        t := Token(LitInt, numStr);
      } else {
        t := Token(LitFlt, numStr);
      }
    }

    /** Scans a name and classifies it. */
    method MakeIdentifier() returns (t: Token)
      requires Valid() && pos < |text| && IsNameStart(text[pos])
      modifies this
      ensures Valid() && inQuotes == old(inQuotes) && quoteCount == old(quoteCount)
      ensures pos == Span(text, old(pos), IsNameChar)
      ensures t == Token(Classify(text[old(pos)..pos]), text[old(pos)..pos])
    {
      ghost var p0 := pos;
      var idStr := "";
      while currentChar.Some? && IsNameChar(currentChar.value)
        invariant Valid() && p0 <= pos <= |text|
        invariant inQuotes == old(inQuotes) && quoteCount == old(quoteCount)
        invariant idStr == text[p0..pos]
        invariant Span(text, p0, IsNameChar) == Span(text, pos, IsNameChar)
        decreases |text| - pos
      {
        idStr := idStr + [currentChar.value];
        IncrementPos();
      }
      if idStr in DataTypes {
        t := Token(DataTypes[idStr], idStr);
      } else if idStr in BoolTypes {
        t := Token(BoolTypes[idStr], idStr);
      } else if idStr in Keywords {
        t := Token(Keyword, idStr);
      } else if idStr in ReservedWords {
        t := Token(ReservedWord, idStr);
      } else {
        t := Token(Identifier, idStr);
      }
    }

    /**
     * Collects a literal up to the closing `delimiter`, which is left
     * unread, and closes the literal; an empty literal yields no token.
     */
    method MakeStringLiteral(delimiter: char) returns (r: Result<Option<Token>, LexError>)
      requires Valid() && pos < |text| && IsQuote(delimiter)
      modifies this
      ensures Valid() && quoteCount == old(quoteCount)
      ensures match LiteralEnd(text, delimiter, old(pos))
              case Ok(n) => r == Ok(LiteralToken(text[old(pos)..n])) && pos == n && !inQuotes
              case Err(e) => r == Err(e)
    {
      ghost var p0 := pos;
      var idString := "";
      while currentChar != Some(delimiter)
        invariant Valid() && p0 <= pos < |text|
        invariant inQuotes == old(inQuotes) && quoteCount == old(quoteCount)
        invariant idString == text[p0..pos]
        invariant LiteralEnd(text, delimiter, p0) == LiteralEnd(text, delimiter, pos)
        decreases |text| - pos
      {
        idString := idString + [currentChar.value];
        IncrementPos();
        if currentChar == Some(OtherQuote(delimiter)) {
          return Err(UnmatchedDelimiter(delimiter));
        }
        if currentChar == None {
          return Err(UnterminatedString(delimiter));
        }
      }
      inQuotes := false;
      if |idString| == 1 {
        r := Ok(Some(Token(LitChar, idString)));
      } else if |idString| > 1 {
        r := Ok(Some(Token(LitStr, idString)));
      } else {
        r := Ok(None);
      }
    }

    /** Skips to the end of the line; the newline itself is left unread. */
    method SkipSinglelineComment()
      requires Valid() && pos <= |text|
      modifies this
      ensures Valid() && inQuotes == old(inQuotes) && quoteCount == old(quoteCount)
      ensures pos == Span(text, old(pos), NotNewline)
    {
      ghost var p0 := pos;
      while currentChar.Some? && currentChar.value != '\n'
        invariant Valid() && p0 <= pos <= |text|
        invariant inQuotes == old(inQuotes) && quoteCount == old(quoteCount)
        invariant Span(text, p0, NotNewline) == Span(text, pos, NotNewline)
        decreases |text| - pos
      {
        IncrementPos();
      }
    }

    /** Skips past the first `*` that ends the text or precedes `/`, or reports an unterminated comment. */
    method SkipMultilineComment() returns (e: Option<LexError>)
      requires Valid() && pos < |text|
      modifies this
      ensures Valid() && inQuotes == old(inQuotes) && quoteCount == old(quoteCount)
      ensures match CommentEnd(text, old(pos))
              case Ok(n) => e == None && pos == n
              case Err(err) => e == Some(err)
    {
      ghost var p0 := pos;
      while currentChar != Some('*') || (pos + 1 < |text| && text[pos + 1] != '/')
        invariant Valid() && p0 <= pos < |text|
        invariant inQuotes == old(inQuotes) && quoteCount == old(quoteCount)
        invariant CommentEnd(text, p0) == CommentEnd(text, pos)
        decreases |text| - pos
      {
        if pos + 1 >= |text| {
          return Some(UnterminatedComment);
        }
        IncrementPos();
      }
      IncrementPos();
      IncrementPos();
      e := None;
    }

    /** Collects the illegal run that starts at the current character. */
    method RaiseMultipleCharError() returns (e: LexError)
      requires Valid() && pos <= |text|
      modifies this
      ensures Valid() && inQuotes == old(inQuotes) && quoteCount == old(quoteCount)
      ensures e == IllegalChar(IllegalRun(text, old(pos)))
    {
      ghost var p0 := pos;
      var illegalChar := "";
      while currentChar.Some? && InIllegalRun(currentChar.value)
        invariant Valid() && p0 <= pos <= |text|
        invariant inQuotes == old(inQuotes) && quoteCount == old(quoteCount)
        invariant illegalChar == text[p0..pos]
        invariant Span(text, p0, InIllegalRun) == Span(text, pos, InIllegalRun)
        decreases |text| - pos
      {
        illegalChar := illegalChar + [currentChar.value];
        IncrementPos();
      }
      e := IllegalChar(illegalChar);
    }

    /** The lookahead check after a one-character operator. */
    method CheckMultipleCharErrorLength1() returns (e: Option<LexError>)
      requires Valid() && pos < |text|
      modifies this
      ensures Valid() && inQuotes == old(inQuotes) && quoteCount == old(quoteCount)
      ensures e == GlueCheck(text, old(pos), 1)
      ensures e == None ==> pos == old(pos)
    {
      if pos + 1 < |text| && !MayFollowOperator(text[pos + 1]) {
        var err := RaiseMultipleCharError();
        return Some(err);
      }
      return None;
    }

    /** The lookahead check after a two-character operator. */
    method CheckMultipleCharErrorLength2() returns (e: Option<LexError>)
      requires Valid() && pos < |text|
      modifies this
      ensures Valid() && inQuotes == old(inQuotes) && quoteCount == old(quoteCount)
      ensures e == GlueCheck(text, old(pos), 2)
      ensures e == None ==> pos == old(pos)
    {
      if pos + 2 < |text| && !MayFollowOperator(text[pos + 2]) {
        var err := RaiseMultipleCharError();
        return Some(err);
      }
      return None;
    }

    /** Emits the operator `value` at the cursor after its lookahead check. */
    method EmitOperator(kind: Kind, value: string) returns (r: Result<Option<Token>, LexError>)
      requires Valid() && (|value| == 1 || |value| == 2)
      requires pos + |value| <= |text| && text[pos..pos + |value|] == value
      modifies this
      ensures Valid() && inQuotes == old(inQuotes) && quoteCount == old(quoteCount)
      ensures Performed(Operator(text, old(pos), |value|, kind), r, pos)
    {
      var e;
      if |value| == 1 {
        e := CheckMultipleCharErrorLength1();
      } else {
        e := CheckMultipleCharErrorLength2();
      }
      if e.Some? {
        return Err(e.value);
      }
      IncrementPos();
      if |value| == 2 {
        IncrementPos();
      }
      r := Ok(Some(Token(kind, value)));
    }

    /** Emits a delimiter that needs no lookahead check. */
    method EmitDelimiter(kind: Kind, value: string) returns (r: Result<Option<Token>, LexError>)
      requires Valid() && pos < |text|
      modifies this
      ensures Valid() && inQuotes == old(inQuotes) && quoteCount == old(quoteCount)
      ensures Performed(Emit(Token(kind, value), old(pos) + 1), r, pos)
    {
      IncrementPos();
      r := Ok(Some(Token(kind, value)));
    }

    /** A semicolon glued to a following character: the run up to whitespace is illegal. */
    method ScanSemicolonRun() returns (r: Result<Option<Token>, LexError>)
      requires Valid() && pos <= |text|
      modifies this
      ensures Valid() && inQuotes == old(inQuotes) && quoteCount == old(quoteCount)
      ensures r == Err(IllegalChar(text[old(pos)..Span(text, old(pos), NotWhitespace)]))
    {
      ghost var p0 := pos;
      var illegalChar := "";
      while currentChar.Some? && !IsWhitespace(currentChar.value)
        invariant Valid() && p0 <= pos <= |text|
        invariant inQuotes == old(inQuotes) && quoteCount == old(quoteCount)
        invariant illegalChar == text[p0..pos]
        invariant Span(text, p0, NotWhitespace) == Span(text, pos, NotWhitespace)
        decreases |text| - pos
      {
        illegalChar := illegalChar + [currentChar.value];
        IncrementPos();
      }
      r := Err(IllegalChar(illegalChar));
    }

    /** The operator, delimiter and comment branches of the main loop, and its final error branch. */
    method ScanSymbol() returns (r: Result<Option<Token>, LexError>)
      requires Valid() && pos < |text|
      modifies this
      ensures Valid() && inQuotes == old(inQuotes) && quoteCount == old(quoteCount)
      ensures Performed(SymbolStep(text, old(pos)), r, Cursor())
    {
      var c := currentChar.value;
      var twoChars := pos + 1 < |text|;
      assert twoChars ==> text[pos..pos + 2] == [c, text[pos + 1]];
      assert text[pos..pos + 1] == [c];
      if c == '+' {
        if twoChars && text[pos + 1] == '=' {
          r := EmitOperator(OpAddAss, "+=");
        } else if twoChars && text[pos + 1] == '+' {
          r := EmitOperator(OpInc, "++");
        } else {
          r := EmitOperator(OpAdd, "+");
        }
      } else if c == '-' {
        if twoChars && text[pos + 1] == '=' {
          r := EmitOperator(OpSubAss, "-=");
        } else if twoChars && text[pos + 1] == '-' {
          r := EmitOperator(OpDec, "--");
        } else {
          r := EmitOperator(OpSub, "-");
        }
      } else if c == '*' {
        if twoChars && text[pos + 1] == '*' {
          r := EmitOperator(OpExp, "**");
        } else if twoChars && text[pos + 1] == '=' {
          r := EmitOperator(OpMulAss, "*=");
        } else {
          r := EmitOperator(OpMul, "*");
        }
      } else if c == '/' {
        if twoChars && text[pos + 1] == '=' {
          r := EmitOperator(OpDivAss, "/=");
        } else if twoChars && text[pos + 1] == '/' {
          SkipSinglelineComment();
          r := Ok(None);
        } else if twoChars && text[pos + 1] == '*' {
          var e := SkipMultilineComment();
          r := if e.Some? then Err(e.value) else Ok(None);
        } else {
          r := EmitOperator(OpDiv, "/");
        }
      } else if c == '%' {
        if twoChars && text[pos + 1] == '=' {
          r := EmitOperator(OpModAss, "%=");
        } else {
          r := EmitOperator(OpMod, "%");
        }
      } else if c == '=' {
        if twoChars && text[pos + 1] == '=' {
          if pos + 2 < |text| {
            // the allowed-character tuple multiplies two strings: a TypeError
            return Err(LexCrash);
          }
          IncrementPos();
          IncrementPos();
          r := Ok(Some(Token(OpEqt, "==")));
        } else {
          r := EmitOperator(OpAss, "=");
        }
      } else {
        r := ScanOtherSymbol();
      }
    }

    /** The comparison, logical, delimiter and comma branches of the main loop, and its final error branch. */
    method ScanOtherSymbol() returns (r: Result<Option<Token>, LexError>)
      requires Valid() && pos < |text|
      modifies this
      ensures Valid() && inQuotes == old(inQuotes) && quoteCount == old(quoteCount)
      ensures Performed(OtherSymbolStep(text, old(pos)), r, Cursor())
    {
      if IsComparisonSymbol(currentChar.value) {
        r := ScanComparison();
      } else {
        r := ScanDelimiter();
      }
    }

    /** The comparison and logical branches of the main loop. */
    method ScanComparison() returns (r: Result<Option<Token>, LexError>)
      requires Valid() && pos < |text| && IsComparisonSymbol(text[pos])
      modifies this
      ensures Valid() && inQuotes == old(inQuotes) && quoteCount == old(quoteCount)
      ensures Performed(ComparisonStep(text, old(pos)), r, Cursor())
    {
      var c := currentChar.value;
      var twoChars := pos + 1 < |text|;
      assert twoChars ==> text[pos..pos + 2] == [c, text[pos + 1]];
      assert text[pos..pos + 1] == [c];
      if c == '>' {
        if twoChars && text[pos + 1] == '=' {
          r := EmitOperator(OpGrtEq, ">=");
        } else {
          r := EmitOperator(OpGrt, ">");
        }
      } else if c == '<' {
        if twoChars && text[pos + 1] == '=' {
          r := EmitOperator(OpLstEq, "<=");
        } else {
          r := EmitOperator(OpLst, "<");
        }
      } else if c == '&' {
        if twoChars && text[pos + 1] == '&' {
          r := EmitOperator(OpLogAnd, "&&");
        } else {
          r := Err(IllegalChar("&"));
        }
      } else if c == '|' {
        if twoChars && text[pos + 1] == '|' {
          r := EmitOperator(OpLogOr, "||");
        } else {
          r := Err(IllegalChar("|"));
        }
      } else {
        if twoChars && text[pos + 1] == '=' {
          r := EmitOperator(OpNeqt, "!=");
        } else {
          r := EmitOperator(OpLogNot, "!");
        }
      }
    }

    /** The delimiter and comma branches of the main loop, and its final error branch. */
    method ScanDelimiter() returns (r: Result<Option<Token>, LexError>)
      requires Valid() && pos < |text|
      modifies this
      ensures Valid() && inQuotes == old(inQuotes) && quoteCount == old(quoteCount)
      ensures Performed(DelimiterStep(text, old(pos)), r, Cursor())
    {
      var c := currentChar.value;
      var twoChars := pos + 1 < |text|;
      assert text[pos..pos + 1] == [c];
      if c == '(' {
        r := EmitDelimiter(DelLParen, "(");
      } else if c == ')' {
        r := EmitDelimiter(DelRParen, ")");
      } else if c == '[' {
        r := EmitDelimiter(DelLBracket, "[");
      } else if c == ']' {
        r := EmitDelimiter(DelRBracket, "]");
      } else if c == '{' {
        r := EmitDelimiter(DelLBrace, "{");
      } else if c == '}' {
        r := EmitDelimiter(DelRBrace, "}");
      } else if c == ';' {
        if twoChars && !IsWhitespace(text[pos + 1]) {
          r := ScanSemicolonRun();
        } else {
          r := EmitDelimiter(DelSemicolon, ";");
        }
      } else if c == ',' {
        r := EmitOperator(DelComma, ",");
      } else {
        r := Err(IllegalChar([c]));
      }
    }

    /** The number, name and symbol branches of the main loop. */
    method ScanToken() returns (r: Result<Option<Token>, LexError>)
      requires Valid() && pos < |text|
      modifies this
      ensures Valid() && inQuotes == old(inQuotes) && quoteCount == old(quoteCount)
      ensures Performed(TokenStep(text, old(pos)), r, Cursor())
    {
      var c := currentChar.value;
      if IsDigit(c) {
        var t := MakeNumber();
        r := Ok(Some(t));
      } else if IsNameStart(c) {
        var t := MakeIdentifier();
        r := Ok(Some(t));
      } else {
        r := ScanSymbol();
      }
    }

    /**
     * A quote outside a literal: it is counted, and every odd one opens a
     * literal closed by the same kind of quote.
     */
    method MeetQuote(ghost m: Mode)
      requires Valid() && pos < |text| && IsQuote(text[pos])
      requires m.Valid() && !m.inQuotes && m.quoteCount == quoteCount && !inQuotes
      modifies this
      ensures Valid() && pos == old(pos) + 1 && quoteCount == old(quoteCount) + 1
      ensures inQuotes == (quoteCount % 2 != 0)
      ensures Lex(text, old(pos), m) == Lex(text, Cursor(), Mode(inQuotes, quoteCount, Some(text[old(pos)])))
    {
      ghost var p := pos;
      quoteCount := quoteCount + 1;
      if quoteCount % 2 != 0 {
        inQuotes := true;
      }
      IncrementPos();
      LexQuote(text, p, m, Cursor(), Mode(inQuotes, quoteCount, Some(text[p])));
    }

    /**
     * The main loop: the tokens from the cursor to the end, in order, or the
     * first error. `delimiter` is the kind of the last quote met.
     */
    method MakeTokens() returns (r: Result<seq<Token>, LexError>)
      requires Valid() && pos <= |text| && !inQuotes
      modifies this
      ensures r == Lex(text, old(pos), Mode(false, old(quoteCount), None))
    {
      ghost var k0 := pos;
      ghost var m0 := Mode(false, quoteCount, None);
      var tokens: seq<Token> := [];
      var delimiter: Option<char> := None;
      PrependNothing(Lex(text, k0, m0));
      while currentChar.Some?
        invariant Valid()
        invariant inQuotes ==> delimiter.Some? && IsQuote(delimiter.value)
        invariant Lex(text, k0, m0) == Prepend(tokens, Lex(text, Cursor(), Mode(inQuotes, quoteCount, delimiter)))
        decreases |text| + 1 - pos, if inQuotes then 1 else 0
      {
        ghost var m := Mode(inQuotes, quoteCount, delimiter);
        ghost var p := pos;
        var c := currentChar.value;
        if IsWhitespace(c) {
          IncrementPos();
          LexWhitespace(text, p, m, Cursor());
        } else if inQuotes {
          var lit := MakeStringLiteral(delimiter.value);
          LexLiteral(text, p, m, Cursor(), Mode(inQuotes, quoteCount, delimiter));
          if lit.Err? {
            return Err(lit.error);
          }
          PrependOptionAppend(tokens, lit.value, Lex(text, Cursor(), Mode(inQuotes, quoteCount, delimiter)));
          if lit.value.Some? {
            tokens := tokens + [lit.value.value];
          }
        } else if c == '"' || c == '\'' {
          delimiter := Some(c);
          MeetQuote(m);
        } else {
          var step := ScanToken();
          LexToken(text, p, m, Cursor(), Mode(inQuotes, quoteCount, delimiter));
          if step.Err? {
            return Err(step.error);
          }
          if step.value.Some? {
            PrependAppend(tokens, step.value.value, Lex(text, Cursor(), Mode(inQuotes, quoteCount, delimiter)));
            tokens := tokens + [step.value.value];
          }
        }
      }
      assert tokens + [] == tokens;
      return Ok(tokens);
    }
  }

  /** Lexes a whole source text with a fresh lexer. */
  method Run(contents: string) returns (r: Result<seq<Token>, LexError>)
    ensures r == Tokenize(contents)
  {
    var lexer := new Lexer(contents);
    r := lexer.MakeTokens();
  }
}
