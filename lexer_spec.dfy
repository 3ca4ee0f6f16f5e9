/**
 * The lexer as functions of the source text `s` and the index `k` of the
 * current character. Each scanner yields the index where it stops; `Lex` is
 * the whole pass from `k` to the end, and the class in module EcLexer is
 * proved to compute it.
 */
module LexSpec {
  import opened Wrappers
  import opened Constants
  import opened Tokens

  // ---------------------------------------------------------------------
  // Character classes used by the scanners
  // ---------------------------------------------------------------------

  /** Space, tab and newline; nothing else is skipped. */
  predicate IsWhitespace(c: char) { c == ' ' || c == '\t' || c == '\n' }
  predicate NotWhitespace(c: char) { !IsWhitespace(c) }
  predicate NotNewline(c: char) { c != '\n' }
  predicate IsQuote(c: char) { c == '"' || c == '\'' }
  predicate IsNameStart(c: char) { IsLetter(c) || c == '_' }
  predicate IsNameChar(c: char) { IsAlphanumeric(c) || c == '_' }

  /** The characters allowed right after an operator. */
  predicate MayFollowOperator(c: char) {
    c == ' ' || c == '(' || c == '\t' || c == '\n' || c == ';' || c == '_'
    || c == '\'' || c == '"' || IsAlphanumeric(c)
  }

  /** An illegal run extends over every character not in this class. */
  predicate EndsIllegalRun(c: char) {
    c == ' ' || c == '\t' || c == '\n' || c == '_' || IsAlphanumeric(c)
  }
  predicate InIllegalRun(c: char) { !EndsIllegalRun(c) }

  /** The quote that is not `d`: meeting it inside a literal is an error. */
  function OtherQuote(d: char): (q: char)
    requires IsQuote(d)
    ensures IsQuote(q) && q != d
  {
    if d == '"' then '\'' else '"'
  }

  /** Every character the main loop has a branch for. */
  predicate IsListed(c: char) {
    IsWhitespace(c) || IsQuote(c) || IsDigit(c) || IsNameStart(c)
    || c in "+-*/%=><&|!()[]{};,"
  }

  // ---------------------------------------------------------------------
  // Scanners
  // ---------------------------------------------------------------------

  /** The end of the longest run of characters from index `k` that all satisfy `p`. */
  function Span(s: string, k: nat, p: char -> bool): (n: nat)
    requires k <= |s|
    ensures k <= n <= |s|
    ensures forall j | k <= j < n :: p(s[j])
    ensures n < |s| ==> !p(s[n])
    decreases |s| - k
  {
    if k < |s| && p(s[k]) then Span(s, k + 1, p) else k
  }

  /**
   * The end of the number that starts at index `k`: digits and at most one
   * dot (none when `seenDot`), stopping before a second dot.
   */
  function NumberEnd(s: string, k: nat, seenDot: bool): (n: nat)
    requires k <= |s|
    ensures k <= n <= |s|
    ensures forall j | k <= j < n :: IsDigit(s[j]) || s[j] == '.'
    ensures n < |s| ==> !IsDigit(s[n])
    decreases |s| - k
  {
    if k == |s| then k
    else if IsDigit(s[k]) then NumberEnd(s, k + 1, seenDot)
    else if s[k] == '.' && !seenDot then NumberEnd(s, k + 1, true)
    else k
  }

  /**
   * A number holds at most one dot, counting one already seen, and it
   * stops at a dot only when that dot would be the second.
   */
  lemma {:induction false} NumberEndDots(s: string, k: nat, seenDot: bool)
    requires k <= |s|
    ensures multiset(s[k..NumberEnd(s, k, seenDot)])['.'] + (if seenDot then 1 else 0) <= 1
    ensures NumberEnd(s, k, seenDot) < |s| && s[NumberEnd(s, k, seenDot)] == '.' ==>
              seenDot || '.' in s[k..NumberEnd(s, k, seenDot)]
    decreases |s| - k
  {
    var n := NumberEnd(s, k, seenDot);
    if k < |s| && (IsDigit(s[k]) || (s[k] == '.' && !seenDot)) {
      var seen' := seenDot || s[k] == '.';
      NumberEndDots(s, k + 1, seen');
      assert n == NumberEnd(s, k + 1, seen');
      assert s[k..n] == [s[k]] + s[k + 1..n];
      assert multiset(s[k..n]) == multiset([s[k]]) + multiset(s[k + 1..n]);
    } else {
      assert s[k..n] == [];
    }
  }

  /** A number with no dot is an integer literal, one with a dot a float literal. */
  function NumberToken(text: string): Token {
    Token(if '.' in text then LitFlt else LitInt, text)
  }

  /** Classification of a name: data type, then boolean, then macro keyword, then reserved word. */
  function Classify(word: string): Kind {
    if word in DataTypes then DataTypes[word]
    else if word in BoolTypes then BoolTypes[word]
    else if word in Keywords then Keyword
    else if word in ReservedWords then ReservedWord
    else Identifier
  }

  /**
   * Scans a literal from index `k` to its closing quote `d`, and yields the
   * index of that quote. After each content character the next one is
   * checked: the other quote is an unmatched delimiter, the end of input an
   * unterminated string.
   */
  function LiteralEnd(s: string, d: char, k: nat): (r: Result<nat, LexError>)
    requires IsQuote(d) && k < |s|
    ensures r.Ok? ==> k <= r.value < |s| && s[r.value] == d
    ensures r.Ok? ==> forall m | k <= m < r.value :: s[m] != d
    ensures r.Ok? ==> forall m | k < m < r.value :: s[m] != OtherQuote(d)
    ensures r == Err(UnterminatedString(d)) ==>
              forall m | k <= m < |s| :: s[m] != d && (m > k ==> s[m] != OtherQuote(d))
    ensures r == Err(UnmatchedDelimiter(d)) ==>
              exists m | k < m < |s| :: s[m] == OtherQuote(d) && forall m' | k <= m' < m :: s[m'] != d
    ensures r.Err? ==> r.error == UnterminatedString(d) || r.error == UnmatchedDelimiter(d)
    decreases |s| - k
  {
    if s[k] == d then Ok(k)
    else if k + 1 < |s| && s[k + 1] == OtherQuote(d) then Err(UnmatchedDelimiter(d))
    else if k + 1 == |s| then Err(UnterminatedString(d))
    else LiteralEnd(s, d, k + 1)
  }

  /** One character is a char literal, more a string literal, none no token at all. */
  function LiteralToken(content: string): Option<Token> {
    if |content| == 1 then Some(Token(LitChar, content))
    else if |content| > 1 then Some(Token(LitStr, content))
    else None
  }

  /** A `*` that is the last character or is followed by `/` closes a block comment. */
  predicate ClosesComment(s: string, k: nat) {
    k < |s| && s[k] == '*' && (k + 1 == |s| || s[k + 1] == '/')
  }

  /**
   * Skips a block comment from index `k`; yields the index just past the
   * first closer (one past the end of `s` when the closer is a final `*`).
   */
  function CommentEnd(s: string, k: nat): (r: Result<nat, LexError>)
    requires k < |s|
    ensures r.Ok? ==> k + 2 <= r.value <= |s| + 1 && ClosesComment(s, r.value - 2)
    ensures r.Ok? ==> forall m | k <= m < r.value - 2 :: !ClosesComment(s, m)
    ensures r.Err? ==> r.error == UnterminatedComment && forall m | k <= m < |s| :: !ClosesComment(s, m)
    decreases |s| - k
  {
    if ClosesComment(s, k) then Ok(k + 2)
    else if k + 1 >= |s| then Err(UnterminatedComment)
    else CommentEnd(s, k + 1)
  }

  /** The run an illegal-character error reports: from index `k` to a separator. */
  function IllegalRun(s: string, k: nat): string
    requires k <= |s|
  {
    s[k..Span(s, k, InIllegalRun)]
  }

  /** The lookahead check after an operator of `width` characters at index `k`. */
  function GlueCheck(s: string, k: nat, width: nat): Option<LexError>
    requires k <= |s|
  {
    if k + width < |s| && !MayFollowOperator(s[k + width]) then Some(IllegalChar(IllegalRun(s, k)))
    else None
  }

  // ---------------------------------------------------------------------
  // One step of the main loop
  // ---------------------------------------------------------------------

  /** What one pass of the main loop does at the current character: `next` is where the following pass starts. */
  datatype Step = Emit(token: Token, next: nat) | Skip(next: nat) | Fail(error: LexError)

  /** An operator of `width` characters at index `k`, subject to the lookahead check. */
  function Operator(s: string, k: nat, width: nat, kind: Kind): (r: Step)
    requires k + width <= |s| && 0 < width
    ensures r.Emit? ==> r == Emit(Token(kind, s[k..k + width]), k + width)
    ensures r.Fail? ==> r.error == IllegalChar(IllegalRun(s, k))
    ensures r.Fail? <==> k + width < |s| && !MayFollowOperator(s[k + width])
    ensures !r.Skip?
  {
    match GlueCheck(s, k, width)
    case Some(e) => Fail(e)
    case None => Emit(Token(kind, s[k..k + width]), k + width)
  }

  /** Is the character after index `k` equal to `c`? */
  predicate NextIs(s: string, k: nat, c: char) { k + 1 < |s| && s[k + 1] == c }

  /** The characters of the arithmetic, division and assignment branches. */
  predicate IsArithmeticSymbol(c: char) {
    c == '+' || c == '-' || c == '*' || c == '/' || c == '%' || c == '='
  }

  /** The characters of the comparison and logical branches. */
  predicate IsComparisonSymbol(c: char) {
    c == '>' || c == '<' || c == '&' || c == '|' || c == '!'
  }

  /** The branches for operator, delimiter and unlisted characters. */
  function SymbolStep(s: string, k: nat): (r: Step)
    requires k < |s|
    ensures r.Emit? || r.Skip? ==> k < r.next <= |s|
  {
    if IsArithmeticSymbol(s[k]) then ArithmeticStep(s, k) else OtherSymbolStep(s, k)
  }

  /** The `+`, `-`, `*`, `/`, `%` and `=` branches, comments included. */
  function ArithmeticStep(s: string, k: nat): (r: Step)
    requires k < |s| && IsArithmeticSymbol(s[k])
    ensures r.Emit? || r.Skip? ==> k < r.next <= |s|
  {
    var c := s[k];
    if c == '+' then
      if NextIs(s, k, '=') then Operator(s, k, 2, OpAddAss)
      else if NextIs(s, k, '+') then Operator(s, k, 2, OpInc)
      else Operator(s, k, 1, OpAdd)
    else if c == '-' then
      if NextIs(s, k, '=') then Operator(s, k, 2, OpSubAss)
      else if NextIs(s, k, '-') then Operator(s, k, 2, OpDec)
      else Operator(s, k, 1, OpSub)
    else if c == '*' then
      if NextIs(s, k, '*') then Operator(s, k, 2, OpExp)
      else if NextIs(s, k, '=') then Operator(s, k, 2, OpMulAss)
      else Operator(s, k, 1, OpMul)
    else if c == '/' then
      if NextIs(s, k, '=') then Operator(s, k, 2, OpDivAss)
      else if NextIs(s, k, '/') then Skip(Span(s, k, NotNewline))
      else if NextIs(s, k, '*') then
        match CommentEnd(s, k)
        case Ok(n) => Skip(if n <= |s| then n else |s|)
        case Err(e) => Fail(e)
      else Operator(s, k, 1, OpDiv)
    else if c == '%' then
      if NextIs(s, k, '=') then Operator(s, k, 2, OpModAss)
      else Operator(s, k, 1, OpMod)
    else
      if NextIs(s, k, '=') then
        // the character set after `==` is built by multiplying two strings
        if k + 2 < |s| then Fail(LexCrash) else Emit(Token(OpEqt, "=="), k + 2)
      else Operator(s, k, 1, OpAss)
  }

  /** The remaining branches: comparison and logical operators, then delimiters. */
  function OtherSymbolStep(s: string, k: nat): (r: Step)
    requires k < |s|
    ensures r.Emit? || r.Skip? ==> k < r.next <= |s|
  {
    if IsComparisonSymbol(s[k]) then ComparisonStep(s, k) else DelimiterStep(s, k)
  }

  /** The `>`, `<`, `&`, `|` and `!` branches. */
  function ComparisonStep(s: string, k: nat): (r: Step)
    requires k < |s| && IsComparisonSymbol(s[k])
    ensures r.Emit? || r.Skip? ==> k < r.next <= |s|
  {
    var c := s[k];
    if c == '>' then
      if NextIs(s, k, '=') then Operator(s, k, 2, OpGrtEq)
      else Operator(s, k, 1, OpGrt)
    else if c == '<' then
      if NextIs(s, k, '=') then Operator(s, k, 2, OpLstEq)
      else Operator(s, k, 1, OpLst)
    else if c == '&' then
      if NextIs(s, k, '&') then Operator(s, k, 2, OpLogAnd)
      else Fail(IllegalChar("&"))
    else if c == '|' then
      if NextIs(s, k, '|') then Operator(s, k, 2, OpLogOr)
      else Fail(IllegalChar("|"))
    else
      if NextIs(s, k, '=') then Operator(s, k, 2, OpNeqt)
      else Operator(s, k, 1, OpLogNot)
  }

  /** The bracket, `;` and `,` branches, and the final error for an unlisted character. */
  function DelimiterStep(s: string, k: nat): (r: Step)
    requires k < |s|
    ensures r.Emit? || r.Skip? ==> k < r.next <= |s|
  {
    var c := s[k];
    if c == '(' then Emit(Token(DelLParen, "("), k + 1)
    else if c == ')' then Emit(Token(DelRParen, ")"), k + 1)
    else if c == '[' then Emit(Token(DelLBracket, "["), k + 1)
    else if c == ']' then Emit(Token(DelRBracket, "]"), k + 1)
    else if c == '{' then Emit(Token(DelLBrace, "{"), k + 1)
    else if c == '}' then Emit(Token(DelRBrace, "}"), k + 1)
    else if c == ';' then
      if k + 1 < |s| && !IsWhitespace(s[k + 1]) then Fail(IllegalChar(s[k..Span(s, k, NotWhitespace)]))
      else Emit(Token(DelSemicolon, ";"), k + 1)
    else if c == ',' then Operator(s, k, 1, DelComma)
    else Fail(IllegalChar([c]))
  }

  /** The step at a character outside a literal that is neither whitespace nor a quote. */
  function TokenStep(s: string, k: nat): (r: Step)
    requires k < |s|
    ensures r.Emit? || r.Skip? ==> k < r.next <= |s|
  {
    if IsDigit(s[k]) then
      var n := NumberEnd(s, k, false);
      Emit(NumberToken(s[k..n]), n)
    else if IsNameStart(s[k]) then
      var n := Span(s, k, IsNameChar);
      Emit(Token(Classify(s[k..n]), s[k..n]), n)
    else SymbolStep(s, k)
  }

  // ---------------------------------------------------------------------
  // The whole pass
  // ---------------------------------------------------------------------

  /**
   * The lexer's literal state: whether a literal is open, how many quotes
   * the main loop has met, and the kind of the last one.
   */
  datatype Mode = Mode(inQuotes: bool, quoteCount: nat, delimiter: Option<char>) {
    predicate Valid() {
      inQuotes ==> delimiter.Some? && IsQuote(delimiter.value)
    }
  }

  const StartMode: Mode := Mode(false, 0, None)

  function Prepend(ts: seq<Token>, r: Result<seq<Token>, LexError>): Result<seq<Token>, LexError> {
    match r
    case Ok(us) => Ok(ts + us)
    case Err(e) => Err(e)
  }

  lemma PrependNothing(r: Result<seq<Token>, LexError>)
    ensures Prepend([], r) == r
  {
    if r.Ok? {
      assert [] + r.value == r.value;
    }
  }

  function PrependOption(t: Option<Token>, r: Result<seq<Token>, LexError>): Result<seq<Token>, LexError> {
    match t
    case Some(tok) => Prepend([tok], r)
    case None => r
  }

  lemma PrependAppend(ts: seq<Token>, t: Token, r: Result<seq<Token>, LexError>)
    ensures Prepend(ts, Prepend([t], r)) == Prepend(ts + [t], r)
  {
    if r.Ok? {
      assert ts + ([t] + r.value) == (ts + [t]) + r.value;
    }
  }

  lemma PrependOptionAppend(ts: seq<Token>, t: Option<Token>, r: Result<seq<Token>, LexError>)
    ensures Prepend(ts, PrependOption(t, r)) == Prepend(ts + (if t.Some? then [t.value] else []), r)
  {
    if t.Some? {
      PrependAppend(ts, t.value, r);
    } else {
      assert ts + [] == ts;
      if r.Ok? {
        assert Prepend(ts, r) == Ok(ts + r.value);
      }
    }
  }

  /** The tokens of `s` from index `k` on, lexed in mode `m`, or the first error. */
  function Lex(s: string, k: nat, m: Mode): Result<seq<Token>, LexError>
    requires k <= |s| && m.Valid()
    decreases |s| - k, if m.inQuotes then 1 else 0
  {
    if k == |s| then Ok([])
    else if IsWhitespace(s[k]) then Lex(s, k + 1, m)
    else if m.inQuotes then
      var d := m.delimiter.value;
      match LiteralEnd(s, d, k)
      case Err(e) => Err(e)
      case Ok(n) => PrependOption(LiteralToken(s[k..n]), Lex(s, n, m.(inQuotes := false)))
    else if IsQuote(s[k]) then
      var count := m.quoteCount + 1;
      Lex(s, k + 1, Mode(count % 2 != 0, count, Some(s[k])))
    else
      match TokenStep(s, k)
      case Fail(e) => Err(e)
      case Skip(n) => Lex(s, n, m)
      case Emit(t, n) => Prepend([t], Lex(s, n, m))
  }

  // One unfolding of `Lex` per branch of the main loop.

  lemma LexWhitespace(s: string, k: nat, m: Mode, k': nat)
    requires k < |s| && m.Valid() && IsWhitespace(s[k]) && k' == k + 1
    ensures Lex(s, k, m) == Lex(s, k', m)
  {
  }

  lemma LexLiteral(s: string, k: nat, m: Mode, k': nat, m': Mode)
    requires k < |s| && m.Valid() && !IsWhitespace(s[k]) && m.inQuotes
    requires k' <= |s|
    ensures LiteralEnd(s, m.delimiter.value, k).Err? ==>
              Lex(s, k, m) == Err(LiteralEnd(s, m.delimiter.value, k).error)
    ensures LiteralEnd(s, m.delimiter.value, k) == Ok(k') && m' == m.(inQuotes := false) ==>
              Lex(s, k, m) == PrependOption(LiteralToken(s[k..k']), Lex(s, k', m'))
  {
  }

  lemma LexQuote(s: string, k: nat, m: Mode, k': nat, m': Mode)
    requires k < |s| && m.Valid() && !m.inQuotes && IsQuote(s[k])
    requires k' == k + 1 && m' == Mode((m.quoteCount + 1) % 2 != 0, m.quoteCount + 1, Some(s[k]))
    ensures Lex(s, k, m) == Lex(s, k', m')
  {
    assert !IsWhitespace(s[k]);
  }

  lemma LexToken(s: string, k: nat, m: Mode, k': nat, m': Mode)
    requires k < |s| && m.Valid() && !m.inQuotes && !IsWhitespace(s[k]) && !IsQuote(s[k])
    requires k' <= |s| && m' == m
    ensures TokenStep(s, k).Fail? ==> Lex(s, k, m) == Err(TokenStep(s, k).error)
    ensures TokenStep(s, k) == Skip(k') ==> Lex(s, k, m) == Lex(s, k', m')
    ensures TokenStep(s, k).Emit? && TokenStep(s, k).next == k' ==>
              Lex(s, k, m) == Prepend([TokenStep(s, k).token], Lex(s, k', m'))
  {
  }

  /** The lexer's entry point on a whole source text. */
  function Tokenize(text: string): Result<seq<Token>, LexError> {
    Lex(text, 0, StartMode)
  }
}
