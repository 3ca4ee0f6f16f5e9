/** What the lexer's pass guarantees, stated on module LexSpec. */
module LexerProps {
  import opened Wrappers
  import opened Constants
  import opened Tokens
  import opened LexSpec
  import opened ConstantsProps

  // ---------------------------------------------------------------------
  // What a well-formed token looks like
  // ---------------------------------------------------------------------

  predicate AllDigits(v: string) { forall j | 0 <= j < |v| :: IsDigit(v[j]) }

  /** A name: a letter or `_`, then letters, digits and `_`. */
  predicate IsName(v: string) {
    |v| > 0 && IsNameStart(v[0]) && forall j | 0 < j < |v| :: IsNameChar(v[j])
  }

  /** The fixed spelling of each operator and delimiter kind the lexer emits. */
  function Spelling(k: Kind): Option<string> {
    match k
    case OpAss => Some("=")
    case OpAddAss => Some("+=")
    case OpSubAss => Some("-=")
    case OpMulAss => Some("*=")
    case OpDivAss => Some("/=")
    case OpModAss => Some("%=")
    case OpAdd => Some("+")
    case OpSub => Some("-")
    case OpMul => Some("*")
    case OpDiv => Some("/")
    case OpMod => Some("%")
    case OpExp => Some("**")
    case OpInc => Some("++")
    case OpDec => Some("--")
    case OpEqt => Some("==")
    case OpNeqt => Some("!=")
    case OpGrt => Some(">")
    case OpLst => Some("<")
    case OpGrtEq => Some(">=")
    case OpLstEq => Some("<=")
    case OpLogAnd => Some("&&")
    case OpLogOr => Some("||")
    case OpLogNot => Some("!")
    case DelLParen => Some("(")
    case DelRParen => Some(")")
    case DelLBracket => Some("[")
    case DelRBracket => Some("]")
    case DelLBrace => Some("{")
    case DelRBrace => Some("}")
    case DelSemicolon => Some(";")
    case DelComma => Some(",")
    case _ => None
  }

  /** The kinds a name can be classified as. */
  predicate IsNameKind(k: Kind) {
    k.DatatypeChar? || k.DatatypeInt? || k.DatatypeFloat? || k.DatatypeStr? || k.DatatypeBool?
    || k.LitBoolTrue? || k.LitBoolFalse? || k.Keyword? || k.ReservedWord? || k.Identifier?
  }

  /**
   * The kind of a token agrees with its text: numbers are digits with at
   * most one dot, names carry their classification, literals their length,
   * operators and delimiters their spelling. The quote and comment kinds,
   * which the lexer never emits, have no spelling and are excluded.
   */
  predicate WellFormed(t: Token) {
    if t.kind == LitInt then |t.value| > 0 && AllDigits(t.value)
    else if t.kind == LitFlt then
      |t.value| > 0 && IsDigit(t.value[0]) && multiset(t.value)['.'] == 1
      && forall j | 0 <= j < |t.value| :: IsDigit(t.value[j]) || t.value[j] == '.'
    else if t.kind == LitChar then |t.value| == 1
    else if t.kind == LitStr then |t.value| > 1
    else if IsNameKind(t.kind) then IsName(t.value) && Classify(t.value) == t.kind
    else Spelling(t.kind) == Some(t.value)
  }

  // ---------------------------------------------------------------------
  // One step
  // ---------------------------------------------------------------------

  lemma ClassifyIsNameKind(w: string)
    ensures IsNameKind(Classify(w))
  {
    if w in DataTypes {
      assert w in ["char", "int", "float", "string", "bool"];
    }
  }

  lemma {:induction false} NumberTokenWellFormed(s: string, k: nat)
    requires k < |s| && IsDigit(s[k])
    ensures WellFormed(NumberToken(s[k..NumberEnd(s, k, false)]))
  {
    var n := NumberEnd(s, k, false);
    var v := s[k..n];
    assert NumberEnd(s, k, false) == NumberEnd(s, k + 1, false);
    NumberEndDots(s, k, false);
    assert v[0] == s[k];
    forall j | 0 <= j < |v| ensures IsDigit(v[j]) || v[j] == '.' {
      assert v[j] == s[k + j];
    }
    if '.' in v {
      var j :| 0 <= j < |v| && v[j] == '.';
      assert multiset(v)['.'] >= 1;
    } else {
      forall j | 0 <= j < |v| ensures IsDigit(v[j]) {
        assert v[j] != '.';
      }
    }
  }

  lemma NameTokenWellFormed(s: string, k: nat)
    requires k < |s| && IsNameStart(s[k])
    ensures var v := s[k..Span(s, k, IsNameChar)];
            WellFormed(Token(Classify(v), v))
  {
    var v := s[k..Span(s, k, IsNameChar)];
    assert Span(s, k, IsNameChar) == Span(s, k + 1, IsNameChar);
    assert v[0] == s[k];
    forall j | 0 < j < |v| ensures IsNameChar(v[j]) {
      assert v[j] == s[k + j];
    }
    ClassifyIsNameKind(v);
  }

  lemma TwoCharacters(s: string, k: nat)
    requires k < |s|
    ensures k + 1 < |s| ==> s[k..k + 2] == [s[k], s[k + 1]]
    ensures s[k..k + 1] == [s[k]]
  {
  }

  // The operator and delimiter branches, a few leading characters at a time.

  /** A token spelled as its kind prescribes is well formed. */
  lemma SpelledWellFormed(t: Token)
    requires Spelling(t.kind) == Some(t.value)
    ensures WellFormed(t)
  {
    assert !IsNameKind(t.kind) && !t.kind.LitInt? && !t.kind.LitFlt? && !t.kind.LitChar? && !t.kind.LitStr?;
  }

  /** An operator step emits a well-formed token when the kind's spelling is the text it covers. */
  lemma OperatorWellFormed(s: string, k: nat, width: nat, kind: Kind)
    requires k + width <= |s| && 0 < width && Spelling(kind) == Some(s[k..k + width])
    ensures Operator(s, k, width, kind).Emit? ==> WellFormed(Operator(s, k, width, kind).token)
  {
    if Operator(s, k, width, kind).Emit? {
      SpelledWellFormed(Token(kind, s[k..k + width]));
    }
  }

  lemma PlusMinusWellFormed(s: string, k: nat)
    requires k < |s| && (s[k] == '+' || s[k] == '-')
    ensures ArithmeticStep(s, k).Emit? ==> WellFormed(ArithmeticStep(s, k).token)
  {
    TwoCharacters(s, k);
    if s[k] == '+' {
      if NextIs(s, k, '=') {
        OperatorWellFormed(s, k, 2, OpAddAss);
      } else if NextIs(s, k, '+') {
        OperatorWellFormed(s, k, 2, OpInc);
      } else {
        OperatorWellFormed(s, k, 1, OpAdd);
      }
    } else {
      if NextIs(s, k, '=') {
        OperatorWellFormed(s, k, 2, OpSubAss);
      } else if NextIs(s, k, '-') {
        OperatorWellFormed(s, k, 2, OpDec);
      } else {
        OperatorWellFormed(s, k, 1, OpSub);
      }
    }
  }

  lemma StarPercentWellFormed(s: string, k: nat)
    requires k < |s| && (s[k] == '*' || s[k] == '%')
    ensures ArithmeticStep(s, k).Emit? ==> WellFormed(ArithmeticStep(s, k).token)
  {
    TwoCharacters(s, k);
    if s[k] == '*' {
      if NextIs(s, k, '*') {
        OperatorWellFormed(s, k, 2, OpExp);
      } else if NextIs(s, k, '=') {
        OperatorWellFormed(s, k, 2, OpMulAss);
      } else {
        OperatorWellFormed(s, k, 1, OpMul);
      }
    } else {
      if NextIs(s, k, '=') {
        OperatorWellFormed(s, k, 2, OpModAss);
      } else {
        OperatorWellFormed(s, k, 1, OpMod);
      }
    }
  }

  lemma SlashWellFormed(s: string, k: nat)
    requires k < |s| && s[k] == '/'
    ensures ArithmeticStep(s, k).Emit? ==> WellFormed(ArithmeticStep(s, k).token)
  {
    TwoCharacters(s, k);
    if NextIs(s, k, '=') {
      OperatorWellFormed(s, k, 2, OpDivAss);
    } else if !NextIs(s, k, '/') && !NextIs(s, k, '*') {
      OperatorWellFormed(s, k, 1, OpDiv);
    }
  }

  lemma EqualsWellFormed(s: string, k: nat)
    requires k < |s| && s[k] == '='
    ensures ArithmeticStep(s, k).Emit? ==> WellFormed(ArithmeticStep(s, k).token)
  {
    TwoCharacters(s, k);
    if !NextIs(s, k, '=') {
      OperatorWellFormed(s, k, 1, OpAss);
    } else {
      SpelledWellFormed(Token(OpEqt, "=="));
    }
  }

  lemma ComparisonWellFormed(s: string, k: nat)
    requires k < |s| && (s[k] == '>' || s[k] == '<')
    ensures ComparisonStep(s, k).Emit? ==> WellFormed(ComparisonStep(s, k).token)
  {
    TwoCharacters(s, k);
    if s[k] == '>' {
      if NextIs(s, k, '=') {
        OperatorWellFormed(s, k, 2, OpGrtEq);
      } else {
        OperatorWellFormed(s, k, 1, OpGrt);
      }
    } else {
      if NextIs(s, k, '=') {
        OperatorWellFormed(s, k, 2, OpLstEq);
      } else {
        OperatorWellFormed(s, k, 1, OpLst);
      }
    }
  }

  lemma LogicalWellFormed(s: string, k: nat)
    requires k < |s| && (s[k] == '&' || s[k] == '|' || s[k] == '!')
    ensures ComparisonStep(s, k).Emit? ==> WellFormed(ComparisonStep(s, k).token)
  {
    TwoCharacters(s, k);
    if s[k] == '&' {
      if NextIs(s, k, '&') {
        OperatorWellFormed(s, k, 2, OpLogAnd);
      }
    } else if s[k] == '|' {
      if NextIs(s, k, '|') {
        OperatorWellFormed(s, k, 2, OpLogOr);
      }
    } else {
      if NextIs(s, k, '=') {
        OperatorWellFormed(s, k, 2, OpNeqt);
      } else {
        OperatorWellFormed(s, k, 1, OpLogNot);
      }
    }
  }

  lemma BracketWellFormed(s: string, k: nat)
    requires k < |s| && s[k] in "()[]{}"
    ensures DelimiterStep(s, k).Emit? ==> WellFormed(DelimiterStep(s, k).token)
  {
    var t := DelimiterStep(s, k).token;
    assert t.kind.DelLParen? || t.kind.DelRParen? || t.kind.DelLBracket?
        || t.kind.DelRBracket? || t.kind.DelLBrace? || t.kind.DelRBrace?;
    SpelledWellFormed(t);
  }

  lemma SemicolonWellFormed(s: string, k: nat)
    requires k < |s| && s[k] == ';'
    ensures DelimiterStep(s, k).Emit? ==> WellFormed(DelimiterStep(s, k).token)
  {
    if DelimiterStep(s, k).Emit? {
      assert DelimiterStep(s, k).token == Token(DelSemicolon, ";");
      SpelledWellFormed(Token(DelSemicolon, ";"));
    }
  }

  lemma CommaWellFormed(s: string, k: nat)
    requires k < |s| && s[k] == ','
    ensures DelimiterStep(s, k).Emit? ==> WellFormed(DelimiterStep(s, k).token)
  {
    assert DelimiterStep(s, k) == Operator(s, k, 1, DelComma);
    if DelimiterStep(s, k).Emit? {
      TwoCharacters(s, k);
      assert DelimiterStep(s, k).token == Token(DelComma, ",");
      SpelledWellFormed(Token(DelComma, ","));
    }
  }

  lemma UnlistedSymbol(s: string, k: nat)
    requires k < |s| && s[k] !in "()[]{};,"
    ensures !DelimiterStep(s, k).Emit?
  {
  }

  /** Every token the operator, delimiter and comment branches emit is well formed. */
  lemma SymbolStepWellFormed(s: string, k: nat)
    requires k < |s|
    ensures SymbolStep(s, k).Emit? ==> WellFormed(SymbolStep(s, k).token)
  {
    var c := s[k];
    if c == '+' || c == '-' {
      PlusMinusWellFormed(s, k);
    } else if c == '*' || c == '%' {
      StarPercentWellFormed(s, k);
    } else if c == '/' {
      SlashWellFormed(s, k);
    } else if c == '=' {
      EqualsWellFormed(s, k);
    } else if c == '>' || c == '<' {
      ComparisonWellFormed(s, k);
    } else if c == '&' || c == '|' || c == '!' {
      LogicalWellFormed(s, k);
    } else if c in "()[]{}" {
      BracketWellFormed(s, k);
    } else if c == ';' {
      SemicolonWellFormed(s, k);
    } else if c == ',' {
      CommaWellFormed(s, k);
    } else {
      UnlistedSymbol(s, k);
    }
  }

  /** Every token one step emits is well formed. */
  lemma {:induction false} TokenStepWellFormed(s: string, k: nat)
    requires k < |s|
    ensures TokenStep(s, k).Emit? ==> WellFormed(TokenStep(s, k).token)
  {
    if IsDigit(s[k]) {
      NumberTokenWellFormed(s, k);
    } else if IsNameStart(s[k]) {
      NameTokenWellFormed(s, k);
    } else {
      SymbolStepWellFormed(s, k);
    }
  }

  lemma LiteralTokenWellFormed(content: string)
    ensures LiteralToken(content).Some? ==> WellFormed(LiteralToken(content).value)
  {
  }

  // ---------------------------------------------------------------------
  // The whole pass
  // ---------------------------------------------------------------------

  /** A lexing result whose tokens, if any, are all well formed. */
  predicate AllWellFormed(r: Result<seq<Token>, LexError>) {
    r.Ok? ==> forall t | t in r.value :: WellFormed(t)
  }

  lemma PrependWellFormed(t: Option<Token>, r: Result<seq<Token>, LexError>)
    requires AllWellFormed(r) && (t.Some? ==> WellFormed(t.value))
    ensures AllWellFormed(PrependOption(t, r))
  {
  }

  /** Every token of a successful pass is well formed. */
  lemma {:induction false} LexWellFormed(s: string, k: nat, m: Mode)
    requires k <= |s| && m.Valid()
    ensures AllWellFormed(Lex(s, k, m))
    decreases |s| - k, if m.inQuotes then 1 else 0
  {
    if k == |s| {
    } else if IsWhitespace(s[k]) {
      LexWhitespace(s, k, m, k + 1);
      LexWellFormed(s, k + 1, m);
    } else if m.inQuotes {
      var m' := m.(inQuotes := false);
      match LiteralEnd(s, m.delimiter.value, k)
      case Err(_) =>
        LexLiteral(s, k, m, k, m');
      case Ok(n) =>
        LexLiteral(s, k, m, n, m');
        LexWellFormed(s, n, m');
        LiteralTokenWellFormed(s[k..n]);
        PrependWellFormed(LiteralToken(s[k..n]), Lex(s, n, m'));
    } else if IsQuote(s[k]) {
      var count := m.quoteCount + 1;
      LexQuote(s, k, m, k + 1, Mode(count % 2 != 0, count, Some(s[k])));
      LexWellFormed(s, k + 1, Mode(count % 2 != 0, count, Some(s[k])));
    } else {
      TokenStepWellFormed(s, k);
      match TokenStep(s, k)
      case Fail(_) =>
        LexToken(s, k, m, k, m);
      case Skip(n) =>
        LexToken(s, k, m, n, m);
        LexWellFormed(s, n, m);
      case Emit(t, n) =>
        LexToken(s, k, m, n, m);
        LexWellFormed(s, n, m);
        PrependWellFormed(Some(t), Lex(s, n, m));
    }
  }

  /**
   * `elseif` is not in the reserved-word table, so a lexed `elseif` is an
   * identifier: no successful pass yields the reserved word `elseif`.
   */
  lemma ElseifNeverLexed(s: string)
    ensures Tokenize(s).Ok? ==>
              forall t | t in Tokenize(s).value :: !(t.kind == ReservedWord && t.value == "elseif")
  {
    ElseifIsAName();
    LexWellFormed(s, 0, StartMode);
  }

  lemma ElseifIsAName()
    ensures Classify("elseif") == Identifier
  {
    if "elseif" in Keywords {
      KeywordsStartWithC("elseif");
    }
  }

  /** Space, tab and newline never produce a token. */
  lemma {:induction false} WhitespaceYieldsNothing(s: string, k: nat, m: Mode)
    requires k <= |s| && m.Valid()
    requires forall j | k <= j < |s| :: IsWhitespace(s[j])
    ensures Lex(s, k, m) == Ok([])
    decreases |s| - k
  {
    if k < |s| {
      WhitespaceYieldsNothing(s, k + 1, m);
    }
  }

  /** The closing delimiter is found when nothing before it ends or breaks the literal. */
  lemma {:induction false} LiteralEndFinds(s: string, d: char, k: nat, n: nat)
    requires IsQuote(d) && k <= n < |s| && s[n] == d
    requires forall j | k <= j < n :: s[j] != d
    requires forall j | k < j < n :: s[j] != OtherQuote(d)
    ensures LiteralEnd(s, d, k) == Ok(n)
    decreases n - k
  {
    if k < n {
      LiteralEndFinds(s, d, k + 1, n);
    }
  }

  /** A whole run of whitespace is skipped, in every mode: the pass goes on after it unchanged. */
  lemma {:induction false} WhitespaceRunSkipped(s: string, k: nat, m: Mode)
    requires k <= |s| && m.Valid()
    ensures Lex(s, k, m) == Lex(s, Span(s, k, IsWhitespace), m)
    decreases |s| - k
  {
    if k < |s| && IsWhitespace(s[k]) {
      assert Span(s, k, IsWhitespace) == Span(s, k + 1, IsWhitespace);
      LexWhitespace(s, k, m, k + 1);
      WhitespaceRunSkipped(s, k + 1, m);
    }
  }

  /** The token a quoted text yields: none for an empty text, a char for one character, a string for more. */
  function QuotedTokens(content: string): seq<Token> {
    if |content| == 0 then [] else [Token(if |content| == 1 then LitChar else LitStr, content)]
  }

  /** The content of a quoted text has no delimiter, and the other quote at most first. */
  predicate QuotableContent(d: char, content: string)
    requires IsQuote(d)
  {
    && (|content| > 0 ==> !IsWhitespace(content[0]))
    && (forall j | 0 <= j < |content| :: content[j] != d)
    && (forall j | 0 < j < |content| :: content[j] != OtherQuote(d))
  }

  /** Inside a literal opened by `d`, its content yields its token and leaves the pass on the closing quote. */
  lemma LiteralContent(s: string, k: nat, m: Mode, d: char, content: string)
    requires m.Valid() && m.inQuotes && m.delimiter == Some(d)
    requires IsQuote(d) && QuotableContent(d, content) && k + |content| < |s|
    requires s[k..k + |content|] == content && s[k + |content|] == d
    ensures Lex(s, k, m) == PrependOption(LiteralToken(content), Lex(s, k + |content|, m.(inQuotes := false)))
  {
    var n := k + |content|;
    forall j | k <= j < n ensures s[j] != d {
      assert s[j] == s[k..n][j - k];
    }
    forall j | k < j < n ensures s[j] != OtherQuote(d) {
      assert s[j] == s[k..n][j - k];
    }
    if |content| == 0 {
      assert LiteralEnd(s, d, k) == Ok(n);
      assert LiteralToken(s[k..n]) == None;
    } else {
      LiteralEndFinds(s, d, k, n);
      assert !IsWhitespace(s[k]) by { assert s[k] == s[k..n][0]; }
      LexLiteral(s, k, m, n, m.(inQuotes := false));
    }
  }

  lemma QuotedTokensPrepend(content: string, r: Result<seq<Token>, LexError>)
    ensures PrependOption(LiteralToken(content), r) == Prepend(QuotedTokens(content), r)
  {
    if |content| == 0 {
      PrependNothing(r);
    }
  }

  /** The opening quote and the content: the content's token, and the pass on the closing quote. */
  lemma QuoteThenContent(s: string, k: nat, m: Mode, d: char, content: string)
    requires m.Valid() && !m.inQuotes && m.quoteCount % 2 == 0
    requires IsQuote(d) && QuotableContent(d, content) && k + |content| + 2 <= |s|
    requires s[k] == d && s[k + 1..k + 1 + |content|] == content && s[k + 1 + |content|] == d
    ensures Lex(s, k, m) ==
              PrependOption(LiteralToken(content), Lex(s, k + 1 + |content|, Mode(false, m.quoteCount + 1, Some(d))))
  {
    var open := Mode(true, m.quoteCount + 1, Some(d));
    assert open.(inQuotes := false) == Mode(false, m.quoteCount + 1, Some(d));
    LexQuote(s, k, m, k + 1, open);
    LiteralContent(s, k + 1, open, d, content);
  }

  /** The closing quote of a literal is counted and skipped; the count is even again. */
  lemma ClosingQuote(s: string, n: nat, count: nat, d: char)
    requires IsQuote(d) && n < |s| && s[n] == d && count % 2 == 1
    ensures Lex(s, n, Mode(false, count, Some(d))) == Lex(s, n + 1, Mode(false, count + 1, Some(d)))
  {
    LexQuote(s, n, Mode(false, count, Some(d)), n + 1, Mode(false, count + 1, Some(d)));
  }

  /**
   * Outside a literal, with an even number of quotes met so far, a quoted
   * text at index `k` opens a literal at its first quote and closes it at
   * its second: it yields its token, and the pass goes on after the closing
   * quote, again outside a literal, two quotes later.
   */
  lemma QuotedLiteralAt(s: string, k: nat, m: Mode, d: char, content: string)
    requires m.Valid() && !m.inQuotes && m.quoteCount % 2 == 0
    requires IsQuote(d) && QuotableContent(d, content) && k + |content| + 2 <= |s|
    requires s[k] == d && s[k + 1..k + 1 + |content|] == content && s[k + 1 + |content|] == d
    ensures Lex(s, k, m) == Prepend(QuotedTokens(content), Lex(s, k + |content| + 2, Mode(false, m.quoteCount + 2, Some(d))))
  {
    var n := k + 1 + |content|;
    QuoteThenContent(s, k, m, d, content);
    ClosingQuote(s, n, m.quoteCount + 1, d);
    QuotedTokensPrepend(content, Lex(s, n + 1, Mode(false, m.quoteCount + 2, Some(d))));
  }

  /**
   * A source text that starts with a quoted text `d content d`: its token,
   * then the rest of the text lexed after both quotes.
   */
  lemma QuotedLiteral(s: string, d: char, content: string)
    requires IsQuote(d) && QuotableContent(d, content) && |content| + 2 <= |s|
    requires s[0] == d && s[1..1 + |content|] == content && s[1 + |content|] == d
    ensures Tokenize(s) == Prepend(QuotedTokens(content), Lex(s, |content| + 2, Mode(false, 2, Some(d))))
  {
    QuotedLiteralAt(s, 0, StartMode, d, content);
  }

  /** Outside a literal, a character no branch lists fails alone, whatever follows it. */
  lemma UnlistedCharacterFails(s: string, k: nat, m: Mode)
    requires k < |s| && m.Valid() && !m.inQuotes && !IsListed(s[k])
    ensures Lex(s, k, m) == Err(IllegalChar([s[k]]))
  {
  }

  // ---------------------------------------------------------------------
  // Which characters fail the main loop, and how
  // ---------------------------------------------------------------------

  /** The two-character operators the lexer reads as one token (`==` has a branch of its own). */
  predicate IsTwoCharOperator(a: char, b: char) {
    || (a == '+' && (b == '=' || b == '+'))
    || (a == '-' && (b == '=' || b == '-'))
    || (a == '*' && (b == '*' || b == '='))
    || (a == '/' && b == '=')
    || (a == '%' && b == '=')
    || (a == '>' && b == '=')
    || (a == '<' && b == '=')
    || (a == '!' && b == '=')
    || (a == '&' && b == '&')
    || (a == '|' && b == '|')
  }

  /** How many characters the operator at index `k` spans: two when they form a two-character operator. */
  function OperatorWidth(s: string, k: nat): (w: nat)
    requires k < |s|
    ensures k + w <= |s| && 1 <= w <= 2
  {
    if k + 1 < |s| && IsTwoCharOperator(s[k], s[k + 1]) then 2 else 1
  }

  /**
   * The characters that start an operator subject to the lookahead check:
   * every operator character except a lone `&` or `|`, `==`, and the `/`
   * that opens a comment.
   */
  predicate IsOperatorStart(s: string, k: nat)
    requires k < |s|
  {
    var c := s[k];
    || c == '+' || c == '-' || c == '*' || c == '%' || c == '>' || c == '<' || c == '!' || c == ','
    || (c == '/' && !NextIs(s, k, '/') && !NextIs(s, k, '*'))
    || (c == '=' && !NextIs(s, k, '='))
    || ((c == '&' || c == '|') && NextIs(s, k, c))
  }

  /** What the lookahead check makes of an operator of `w` characters at index `k`. */
  predicate GlueChecked(r: Step, s: string, k: nat, w: nat)
    requires k + w <= |s|
  {
    && (r.Fail? <==> k + w < |s| && !MayFollowOperator(s[k + w]))
    && (r.Fail? ==> r.error == IllegalChar(IllegalRun(s, k)))
    && (r.Emit? ==> r.next == k + w && r.token.value == s[k..k + w])
    && !r.Skip?
  }

  lemma OperatorGlueChecked(s: string, k: nat, w: nat, kind: Kind)
    requires k + w <= |s| && 0 < w
    ensures GlueChecked(Operator(s, k, w, kind), s, k, w)
  {
  }

  lemma ArithmeticGlue(s: string, k: nat)
    requires k < |s| && IsOperatorStart(s, k) && IsArithmeticSymbol(s[k])
    ensures GlueChecked(ArithmeticStep(s, k), s, k, OperatorWidth(s, k))
  {
    var c := s[k];
    if c == '+' {
      if NextIs(s, k, '=') {
        OperatorGlueChecked(s, k, 2, OpAddAss);
      } else if NextIs(s, k, '+') {
        OperatorGlueChecked(s, k, 2, OpInc);
      } else {
        OperatorGlueChecked(s, k, 1, OpAdd);
      }
    } else if c == '-' {
      if NextIs(s, k, '=') {
        OperatorGlueChecked(s, k, 2, OpSubAss);
      } else if NextIs(s, k, '-') {
        OperatorGlueChecked(s, k, 2, OpDec);
      } else {
        OperatorGlueChecked(s, k, 1, OpSub);
      }
    } else if c == '*' {
      if NextIs(s, k, '*') {
        OperatorGlueChecked(s, k, 2, OpExp);
      } else if NextIs(s, k, '=') {
        OperatorGlueChecked(s, k, 2, OpMulAss);
      } else {
        OperatorGlueChecked(s, k, 1, OpMul);
      }
    } else if c == '/' {
      if NextIs(s, k, '=') {
        OperatorGlueChecked(s, k, 2, OpDivAss);
      } else {
        OperatorGlueChecked(s, k, 1, OpDiv);
      }
    } else if c == '%' {
      if NextIs(s, k, '=') {
        OperatorGlueChecked(s, k, 2, OpModAss);
      } else {
        OperatorGlueChecked(s, k, 1, OpMod);
      }
    } else {
      OperatorGlueChecked(s, k, 1, OpAss);
    }
  }

  lemma ComparisonGlue(s: string, k: nat)
    requires k < |s| && IsOperatorStart(s, k) && IsComparisonSymbol(s[k])
    ensures GlueChecked(ComparisonStep(s, k), s, k, OperatorWidth(s, k))
  {
    var c := s[k];
    if c == '>' {
      if NextIs(s, k, '=') {
        OperatorGlueChecked(s, k, 2, OpGrtEq);
      } else {
        OperatorGlueChecked(s, k, 1, OpGrt);
      }
    } else if c == '<' {
      if NextIs(s, k, '=') {
        OperatorGlueChecked(s, k, 2, OpLstEq);
      } else {
        OperatorGlueChecked(s, k, 1, OpLst);
      }
    } else if c == '&' {
      OperatorGlueChecked(s, k, 2, OpLogAnd);
    } else if c == '|' {
      OperatorGlueChecked(s, k, 2, OpLogOr);
    } else {
      if NextIs(s, k, '=') {
        OperatorGlueChecked(s, k, 2, OpNeqt);
      } else {
        OperatorGlueChecked(s, k, 1, OpLogNot);
      }
    }
  }

  /**
   * An operator covers one character, or two when they form a two-character
   * operator; it fails exactly when the character after it may not follow an
   * operator, and then reports the run from the operator to a separator.
   */
  lemma OperatorGlue(s: string, k: nat)
    requires k < |s| && IsOperatorStart(s, k)
    ensures var r := TokenStep(s, k);
            var w := OperatorWidth(s, k);
            && (r.Fail? <==> k + w < |s| && !MayFollowOperator(s[k + w]))
            && (r.Fail? ==> r.error == IllegalChar(IllegalRun(s, k)))
            && (r.Emit? ==> r.next == k + w && r.token.value == s[k..k + w])
            && !r.Skip?
  {
    var c := s[k];
    assert !IsDigit(c) && !IsNameStart(c);
    if IsArithmeticSymbol(c) {
      ArithmeticGlue(s, k);
    } else if IsComparisonSymbol(c) {
      ComparisonGlue(s, k);
    } else {
      assert DelimiterStep(s, k) == Operator(s, k, 1, DelComma);
      OperatorGlueChecked(s, k, 1, DelComma);
    }
  }

  /** Outside a literal, `&` or `|` not doubled stops the lexer with itself as the run. */
  lemma LoneLogicalFails(s: string, k: nat, m: Mode)
    requires k < |s| && m.Valid() && !m.inQuotes
    requires (s[k] == '&' || s[k] == '|') && !NextIs(s, k, s[k])
    ensures Lex(s, k, m) == Err(IllegalChar([s[k]]))
  {
    assert !IsDigit(s[k]) && !IsNameStart(s[k]) && !IsWhitespace(s[k]) && !IsQuote(s[k]);
    assert TokenStep(s, k) == Fail(IllegalChar([s[k]]));
  }

  /**
   * Outside a literal, a `;` followed by a character other than whitespace
   * stops the lexer with the run up to the next whitespace; otherwise it is
   * a semicolon token of its own.
   */
  lemma SemicolonRule(s: string, k: nat, m: Mode)
    requires k < |s| && m.Valid() && !m.inQuotes && s[k] == ';'
    ensures k + 1 < |s| && !IsWhitespace(s[k + 1]) ==>
              Lex(s, k, m) == Err(IllegalChar(s[k..Span(s, k, NotWhitespace)]))
    ensures k + 1 == |s| || IsWhitespace(s[k + 1]) ==>
              Lex(s, k, m) == Prepend([Token(DelSemicolon, ";")], Lex(s, k + 1, m))
  {
    assert !IsDigit(s[k]) && !IsNameStart(s[k]) && !IsWhitespace(s[k]) && !IsQuote(s[k]);
    assert TokenStep(s, k) == DelimiterStep(s, k);
  }

  /** Outside a literal, a bracket is always a token of its own, whatever follows it. */
  lemma BracketAlwaysEmitted(s: string, k: nat, m: Mode)
    requires k < |s| && m.Valid() && !m.inQuotes
    requires s[k] == '(' || s[k] == ')' || s[k] == '[' || s[k] == ']' || s[k] == '{' || s[k] == '}'
    ensures TokenStep(s, k).Emit? && TokenStep(s, k).next == k + 1
    ensures TokenStep(s, k).token.value == [s[k]] && WellFormed(TokenStep(s, k).token)
    ensures Lex(s, k, m) == Prepend([TokenStep(s, k).token], Lex(s, k + 1, m))
  {
    assert !IsDigit(s[k]) && !IsNameStart(s[k]) && !IsWhitespace(s[k]) && !IsQuote(s[k]);
    assert TokenStep(s, k) == DelimiterStep(s, k);
    BracketWellFormed(s, k);
  }

  /**
   * Every way one pass of the main loop can fail at a character that is
   * neither whitespace nor a quote: an operator glued to a character that
   * may not follow it, a lone `&` or `|`, a `;` glued to the next
   * character, `==` with a character after it, an unterminated block
   * comment, and a character no branch lists.
   */
  predicate FailsAt(s: string, k: nat)
    requires k < |s|
  {
    || (IsOperatorStart(s, k) && k + OperatorWidth(s, k) < |s| && !MayFollowOperator(s[k + OperatorWidth(s, k)]))
    || ((s[k] == '&' || s[k] == '|') && !NextIs(s, k, s[k]))
    || (s[k] == ';' && k + 1 < |s| && !IsWhitespace(s[k + 1]))
    || (s[k] == '=' && NextIs(s, k, '=') && k + 2 < |s|)
    || (s[k] == '/' && NextIs(s, k, '*') && CommentEnd(s, k).Err?)
    || !IsListed(s[k])
  }

  lemma SpecialSymbolFailures(s: string, k: nat)
    requires k < |s| && !IsWhitespace(s[k]) && !IsQuote(s[k]) && !IsDigit(s[k]) && !IsNameStart(s[k])
    requires !IsOperatorStart(s, k)
    ensures SymbolStep(s, k).Fail? <==> FailsAt(s, k)
  {
    var c := s[k];
    if c == '&' || c == '|' {
      assert ComparisonStep(s, k) == Fail(IllegalChar([c]));
    } else if c == ';' {
      assert SymbolStep(s, k) == DelimiterStep(s, k);
    } else if c == '=' {
      assert NextIs(s, k, '=');
    } else if c == '/' {
      assert NextIs(s, k, '/') || NextIs(s, k, '*');
    } else if c == '(' || c == ')' || c == '[' || c == ']' || c == '{' || c == '}' {
      assert SymbolStep(s, k) == DelimiterStep(s, k);
    } else {
      assert !IsListed(c);
      assert SymbolStep(s, k) == DelimiterStep(s, k);
    }
  }

  /** One pass of the main loop fails exactly at the characters `FailsAt` lists. */
  lemma TokenStepFailures(s: string, k: nat)
    requires k < |s| && !IsWhitespace(s[k]) && !IsQuote(s[k])
    ensures TokenStep(s, k).Fail? <==> FailsAt(s, k)
  {
    var c := s[k];
    if IsDigit(c) || IsNameStart(c) {
      assert IsListed(c) && !IsOperatorStart(s, k);
    } else if IsOperatorStart(s, k) {
      OperatorGlue(s, k);
    } else {
      SpecialSymbolFailures(s, k);
    }
  }
}
