# electriC front end in Dafny

electriC is a small teaching language for electrical-engineering
formulas. Its front end turns a program text into tokens, then parses the
tokens by recursive descent into a syntax tree rooted at `Main { ... }`.
This project models that front end:

- **The tables** shared by both passes (`constants.dfy`): the character
  sets, the token kinds, the data-type map, the reserved words and the
  37 macro keywords (`CV1`, `CKH`, `CHTM`, ...).
- **The lexer** (`ec_lexer.dfy`): a `Lexer` class with the fields the
  source updates in place (`text`, `pos`, `currentChar`, `inQuotes`,
  `quoteCount`). It has one method per source method, with the same
  loops. Each method is proved equal to a functional specification in
  `lexer_spec.dfy`:
  - `Lex(s, k, m)` lexes text `s` from index `k` in literal mode `m`.
  - `TokenStep` is one pass of the main loop.
  - `NumberEnd`, `LiteralEnd`, `CommentEnd` and `GlueCheck` are the
    inner loops and the lookahead check.
- **The parser** (`ec_parser.dfy`): a `Parser` class holding `tokens`,
  `currentToken` and `tokenIndex`, with one method per source method
  (helper methods are split off where the source's method has many exits).
  Each method is proved to agree with a recursive-descent specification
  in `parser_spec.dfy`. That specification works on `(tokens, index)`:
  the current token is `tokens[index - 1]`, as in the source, where
  `token_index` is always one past the current token.
- **The syntax tree** (`ast.dfy`): one constructor per node class of the
  source, plus the table that says how each macro keyword expands.

The properties are in `constants_props.dfy`, `lexer_props.dfy` and
`parser_props.dfy`. Concrete inputs are in `lexer_examples.dfy` and
`parser_examples.dfy`.

Failures are values, not exceptions:
- The lexer returns `Result<seq<Token>, LexError>`. `LexError` has one
  constructor per error class the lexer raises.
- The parser returns `Result<_, ParseError>`. `SyntaxError` stands for
  every `SyntaxError` the parser raises. `ParseCrash` stands for the
  interpreter errors the parser runs into:
  - an attribute read on the missing token after the last one
    (`peek_next_token` gives `None` there, and ec_parser.py:464-465 and
    ec_parser.py:753-755 read its `value` or `type_`);
  - a return value left unbound (ec_parser.py:857-875);
  - recursion without end.

Four names that both passes use are not defined in `constants.py`. The
model assumes them (marked "assumed" in `constants.dfy`):
- `BOOL_TYPES` maps `true` and `false` to the kinds `LIT_BOOLTRUE` and
  `LIT_BOOLFALSE`.
- `TOKEN_DATA_TYPES` is the five data-type kinds.
- `TOKEN_ASS_OPS` is the six assignment kinds.
- `TOKEN_UNR_OPS` is `++` and `--`.

The comma kind `TT_COMMA` (ec_lexer.py:374) is not defined either. It is
assumed to be `DEL_COMMA`, the string the parser tests for.

The model follows the code as written wherever the code and its
documentation differ. These behaviours are kept and stated as lemmas:

- **`>=` is never a relational operator.** `TT_GRTEQ` is bound to the
  string `OP_GR`, but the relational level tests for `OP_GRTEQ`
  (`ConstantsProps.NoKindNamedOpGrtEq`, `ParserProps.RelationalOperators`,
  `ParserExamples.GreaterOrEqualStops`).
- **`==` followed by a character crashes.** The test of that character
  multiplies two strings (ec_lexer.py:289), so the lexer fails with a type
  error (`LexCrash`, `LexerExamples.EqualityCrashExample`). An `==` that
  ends the text is fine.
- **A `for` loop never declares a variable.** The `for` loop's
  declaration branch tests for the kind names `DT_INT` and `DT_FLOAT`,
  which no token has. A `for` loop therefore only accepts a list of names
  (`ParserProps.ForInitIsAList`).
- **A `for` loop's step must be a unary statement.** When it is not, the
  step is left unbound (ec_parser.py:752-758). The `)` test right after it
  (ec_parser.py:760-763) then stands on the step's name and raises a
  syntax error, so the unbound step is never read:
  `for ( i ; i < 1 ; i ) { }` is a syntax error
  (`ParserProps.ForStepIsBound`).
- **`return` must be followed by a value token.** Otherwise it crashes
  (`ParseSpec.ParseReturn`, `ParserExamples.ParenthesisedReturnCrashes`).
- **A `(` as the last token recurses forever**
  (`ParserExamples.OpenParenAtEndCrashes`).
- **An operator condition in `parse_literal` groups as
  `(kind and type) or type`.** The `bool` type therefore accepts any token
  except `Scan`, a macro and `(` (`ParserProps.LiteralTypeTests`).
- **`elseif` is not a reserved word.** It lexes as an identifier, so no
  lexed token is the reserved word `elseif` (`LexerProps.ElseifNeverLexed`).
  On lexed input an `if` statement therefore never has an `elseif` part
  (`ParserProps.LexedIfHasNoElseif`).
- **A program's final `}` may be missing when its last statement is a
  `while`, `for` or `if` that ends on the last token.** Consuming stands
  still at the last token (ec_parser.py:158-160), so the `}` that closed the
  statement is seen again by the body's loop test (ec_parser.py:209) and
  matched again as the program's `}` (ec_parser.py:199-200):
  `Main { while ( x ) { }` is accepted
  (`ParserExamples.MissingFinalBraceAccepted`). This is why the shape
  lemmas say a construct ends just past its `}` or on it.
- **A macro used as a statement discards its target name.** The result is
  the bare macro expansion (`ParserProps.NameLedStatement`).

## Model

| member | source | states |
|---|---|---|
| ConstantsProps.NoKindNamedOpGrtEq | constants.py:54 | no token kind is named `OP_GRTEQ` (the `>=` kind is named `OP_GR`) |
| ConstantsProps.NoKindNamedDtInt | ec_parser.py:741 | no token kind is named `DT_INT` |
| ConstantsProps.NoKindNamedDtFloat | ec_parser.py:741 | no token kind is named `DT_FLOAT` |
| ConstantsProps.DigitsMembership | constants.py:7 | a character is in DIGITS exactly when it is `0`..`9` |
| ConstantsProps.LowerMembership | constants.py:6 | a character is among the lower-case ASCII letters exactly when it is `a`..`z` |
| ConstantsProps.UpperMembership | constants.py:6 | a character is among the upper-case ASCII letters exactly when it is `A`..`Z` |
| ConstantsProps.LettersMembership | constants.py:6 | a character is in LETTERS exactly when it is an ASCII letter |
| ConstantsProps.AlphanumericMembership | constants.py:8 | ALPHANUMERIC has 62 characters; a character is in it exactly when it is a digit or an ASCII letter |
| ConstantsProps.DataTypesTable | constants.py:80-86 | DATA_TYPES holds exactly the five type words, each mapped to its own data-type kind |
| ConstantsProps.KeywordsStartWithC | constants.py:103-141 | every macro keyword has at least three characters and starts with `C` |
| ConstantsProps.OthersDoNotStartWithC | constants.py:80-102 | no data-type word or reserved word starts with `C` |
| ConstantsProps.KeywordsTable | constants.py:103-141 | KEYWORDS has 37 entries, no two of them equal |
| ConstantsProps.TablesDisjoint | constants.py:80-141 | the data types, reserved words and macro keywords share no word |
| ConstantsProps.BooleanWordsAreReserved | constants.py:87-102 | `true` and `false` are both boolean words and reserved words |
| EcLexer.Lexer.constructor | ec_lexer.py:42-48 | a new lexer is at position 0, outside any literal, with no quotes counted |
| EcLexer.Lexer.IncrementPos | ec_lexer.py:50-52 | advances the position by one and reloads the current character; the literal state is unchanged |
| EcLexer.Lexer.MakeNumber | ec_lexer.py:54-71 | consumes the longest run of digits with at most one dot and returns it as an int or a float token |
| EcLexer.Lexer.MakeIdentifier | ec_lexer.py:73-89 | consumes the longest run of name characters and returns it with its classification (data type, boolean, macro keyword, reserved word or identifier) |
| EcLexer.Lexer.MakeStringLiteral | ec_lexer.py:91-116 | consumes a literal up to its closing quote; fails on a missing closing quote or on the other kind of quote; the literal gives nothing, a char or a string token by its length |
| EcLexer.Lexer.SkipSinglelineComment | ec_lexer.py:118-121 | moves to the next newline or to the end of the text |
| EcLexer.Lexer.SkipMultilineComment | ec_lexer.py:123-132 | moves past the first closing `*/` (or a final `*`), or fails with an unterminated-comment error |
| EcLexer.Lexer.RaiseMultipleCharError | ec_lexer.py:134-139 | reports the run of characters up to the next separator as illegal |
| EcLexer.Lexer.CheckMultipleCharErrorLength1 | ec_lexer.py:142-144 | fails exactly when the character after a one-character operator may not follow an operator |
| EcLexer.Lexer.CheckMultipleCharErrorLength2 | ec_lexer.py:146-148 | fails exactly when the character after a two-character operator may not follow an operator |
| EcLexer.Lexer.EmitOperator | ec_lexer.py:188-208 | performs an operator step: the glue check, then the operator token and the position after it |
| EcLexer.Lexer.EmitDelimiter | ec_lexer.py:345-362 | emits a one-character delimiter token and advances by one |
| EcLexer.Lexer.ScanSemicolonRun | ec_lexer.py:363-369 | reports the run from a glued `;` to the next whitespace as illegal |
| EcLexer.Lexer.ScanSymbol | ec_lexer.py:188-377 | performs exactly the step the symbol specification gives for the current character |
| EcLexer.Lexer.ScanOtherSymbol | ec_lexer.py:299-377 | the same, for the comparison, logical, delimiter and separator characters |
| EcLexer.Lexer.ScanComparison | ec_lexer.py:299-344 | the same, for `>`, `<`, `&`, `\|` and `!` |
| EcLexer.Lexer.ScanDelimiter | ec_lexer.py:345-377 | the same, for brackets, `;`, `,` and a character without a branch |
| EcLexer.Lexer.ScanToken | ec_lexer.py:184-377 | performs exactly one step of the main loop at a character that is neither whitespace nor a quote |
| EcLexer.Lexer.MeetQuote | ec_lexer.py:170-183 | a quote outside a literal is counted and skipped, and every odd one opens a literal closed by the same kind of quote |
| EcLexer.Lexer.MakeTokens | ec_lexer.py:159-378 | the token list or error equals the lexing specification from the current position and quote count |
| EcLexer.Run | ec_lexer.py:28-31 | lexing a text gives exactly the tokens or the error of the specification |
| LexSpec.NumberEnd | ec_lexer.py:54-71 | a number ends at the first non-digit that is not an allowed dot; everything before it is digits and dots |
| LexSpec.NumberEndDots | ec_lexer.py:54-71 | a number holds at most one dot, and a second dot is where it stops |
| LexSpec.LiteralEnd | ec_lexer.py:91-116 | the closing quote found is the first one; no other quote lies inside; each error case holds exactly when its condition is met |
| LexSpec.CommentEnd | ec_lexer.py:123-132 | the comment ends after the first closer; an unterminated comment has no closer at all |
| LexSpec.Operator | ec_lexer.py:142-148 | an operator step fails exactly when a character follows the operator and that character may not follow an operator, and then reports the illegal run; otherwise it emits the operator's own text and moves past it; it never skips |
| LexSpec.SymbolStep | ec_lexer.py:188-377 | a symbol step that emits or skips moves forward and stays within the text |
| LexSpec.TokenStep | ec_lexer.py:184-377 | a main-loop step that emits or skips moves forward and stays within the text |
| LexerProps.SpelledWellFormed | ec_lexer.py:188-375 | a token whose text is its kind's fixed spelling is well formed |
| LexerProps.OperatorWellFormed | ec_lexer.py:142-148 | an operator step emits a well-formed token when the operator's spelling is the text it covers |
| LexerProps.ClassifyIsNameKind | ec_lexer.py:73-89 | a word is always classified as a data type, a boolean, a macro keyword, a reserved word or an identifier |
| LexerProps.NumberTokenWellFormed | ec_lexer.py:54-71 | a number token is non-empty digits, and a float has exactly one dot |
| LexerProps.NameTokenWellFormed | ec_lexer.py:73-89 | a name token is a letter or `_` followed by name characters, with its classification as kind |
| LexerProps.PlusMinusWellFormed | ec_lexer.py:188-229 | every token of the `+` and `-` branches has its operator's spelling |
| LexerProps.StarPercentWellFormed | ec_lexer.py:230-286 | every token of the `*` and `%` branches has its operator's spelling |
| LexerProps.SlashWellFormed | ec_lexer.py:251-270 | every token of the `/` branch has its operator's spelling |
| LexerProps.EqualsWellFormed | ec_lexer.py:287-298 | every token of the `=` branch has its operator's spelling |
| LexerProps.ComparisonWellFormed | ec_lexer.py:299-318 | every token of the `>` and `<` branches has its operator's spelling |
| LexerProps.LogicalWellFormed | ec_lexer.py:319-344 | every token of the `&`, `\|` and `!` branches has its operator's spelling |
| LexerProps.BracketWellFormed | ec_lexer.py:345-362 | every bracket token has its delimiter's spelling |
| LexerProps.SemicolonWellFormed | ec_lexer.py:363-371 | the `;` token has its spelling |
| LexerProps.CommaWellFormed | ec_lexer.py:372-375 | the `,` token has its spelling |
| LexerProps.UnlistedSymbol | ec_lexer.py:376-377 | a character without a branch never gives a token |
| LexerProps.SymbolStepWellFormed | ec_lexer.py:188-377 | every token of a symbol step is well formed |
| LexerProps.TokenStepWellFormed | ec_lexer.py:184-377 | every token of a main-loop step is well formed |
| LexerProps.LiteralTokenWellFormed | ec_lexer.py:113-116 | a char literal has one character, a string literal more than one |
| LexerProps.LexWellFormed | ec_lexer.py:159-378 | every token of a successful lexing pass agrees with its kind |
| LexerProps.WhitespaceYieldsNothing | ec_lexer.py:163-165 | a text that is only whitespace from a point on yields no tokens |
| LexerProps.LiteralEndFinds | ec_lexer.py:91-110 | a literal with no stray quotes ends at its closing quote |
| LexerProps.ElseifNeverLexed | ec_lexer.py:73-89 | no token of a successful pass is the reserved word `elseif` |
| LexerProps.WhitespaceRunSkipped | ec_lexer.py:163-165 | a run of whitespace is skipped as a whole, inside a literal as well: lexing resumes after it in the same mode |
| LexerProps.LiteralContent | ec_lexer.py:166-169 | inside a literal without stray quotes, the content gives its literal token, and lexing goes on after it outside the literal |
| LexerProps.QuotedLiteralAt | ec_lexer.py:166-183 | outside a literal, with an even quote count, `d content d` gives the content's literal token (nothing, a char or a string, by length), then the lexing of the rest outside quotes with two more quotes counted |
| LexerProps.QuotedLiteral | ec_lexer.py:159-183 | a text that starts with `d content d` lexes to the content's literal token followed by the lexing of the rest, outside quotes, with quote count 2 |
| LexerProps.UnlistedCharacterFails | ec_lexer.py:376-377 | a character without a branch stops the lexer with that character as the illegal text |
| LexerProps.OperatorGlue | ec_lexer.py:188-344 | at an operator, the step fails exactly when the character after the operator may not follow one, and then reports the illegal run; otherwise it emits the operator's text and moves past it |
| LexerProps.LoneLogicalFails | ec_lexer.py:319-334 | an `&` or `\|` not doubled stops the lexer with that character as the illegal text |
| LexerProps.SemicolonRule | ec_lexer.py:363-371 | a `;` followed by a character other than whitespace stops the lexer with the run up to the next whitespace; otherwise it is a `;` token |
| LexerProps.BracketAlwaysEmitted | ec_lexer.py:345-362 | a bracket is always emitted as its own one-character token, with no lookahead |
| LexerProps.TokenStepFailures | ec_lexer.py:184-377 | a main-loop step fails exactly at a glued operator, a lone `&` or `\|`, a glued `;`, an `==` with a following character, an unterminated comment, or a character without a branch |
| LexerExamples.DeclarationNumber | ec_lexer.py:54-71 | in `int x = 42;` the number `42` stops at the `;` |
| LexerExamples.DeclarationSymbols | ec_lexer.py:287-298 | in `int x = 42;` the `=` and the `;` are one-character tokens |
| LexerExamples.DeclarationTail | ec_lexer.py:159-378 | `= 42;` lexes to an assignment, an int literal and a semicolon |
| LexerExamples.DeclarationNameAndTail | ec_lexer.py:159-378 | `x = 42;` lexes to an identifier and the tail above |
| LexerExamples.DeclarationName | ec_lexer.py:73-89 | in `int x = 42;` the name `x` is an identifier |
| LexerExamples.DeclarationType | ec_lexer.py:73-89 | in `int x = 42;` the word `int` is the int data type |
| LexerExamples.DeclarationExample | ec_lexer.py:159-378 | `int x = 42;` lexes to five tokens |
| LexerExamples.ClassifyDataType | ec_lexer.py:80-81 | `int` and `string` are data-type words |
| LexerExamples.ClassifyBoolean | ec_lexer.py:82-83 | `true` and `false` are boolean literals, not reserved words |
| LexerExamples.ClassifyKeyword | ec_lexer.py:84-85 | `CV1` and `CHTM` are macro keywords |
| LexerExamples.ClassifyReservedWord | ec_lexer.py:86-87 | `while` and `Main` are reserved words |
| LexerExamples.ClassifyIdentifier | ec_lexer.py:88-89 | `x` and `elseif` are identifiers |
| LexerExamples.UnterminatedStringExample | ec_lexer.py:100-101 | a double-quoted literal with no closing quote is unterminated |
| LexerExamples.UnmatchedDelimiterExample | ec_lexer.py:98-99 | a single quote inside a double-quoted literal is an unmatched delimiter |
| LexerExamples.GluedOperatorExample | ec_lexer.py:142-144 | `+@` is reported as one illegal run |
| LexerExamples.UnterminatedCommentExample | ec_lexer.py:127-128 | a block comment with no closer is unterminated |
| LexerExamples.CommentCloserOverlapsOpener | ec_lexer.py:125 | the closer check starts at the opener's star, so one slash after the opener closes the comment |
| LexerExamples.CommentClosedByFinalStar | ec_lexer.py:125 | a block comment whose last character is `*` counts as closed |
| LexerExamples.IncrementBeforeParenExample | ec_lexer.py:188-208 | `++)` is reported as one illegal run |
| LexerExamples.EqualityCrashExample | ec_lexer.py:287-290 | `==` followed by a character crashes the lexer |
| LexerExamples.EqualityAtEndExample | ec_lexer.py:287-293 | `==` at the end of the text is an equality token |
| LexerExamples.LoneAmpersandExample | ec_lexer.py:319-326 | a single `&` is illegal |
| LexerExamples.SemicolonGlueExample | ec_lexer.py:363-369 | a `;` glued to a name is reported with that name as one illegal run |
| LexerExamples.SecondDotExample | ec_lexer.py:54-71 | in `1.2.3` the second dot ends the number and is then illegal |
| LexerExamples.LoneQuoteExample | ec_lexer.py:166-183 | a quote followed only by whitespace yields nothing: the literal is never closed, and the end of the text ends the pass |
| EcParser.Parser.constructor | ec_parser.py:153-156 | a new parser holds the tokens and stands before the first one |
| EcParser.Parser.ConsumeToken | ec_parser.py:158-161 | moves to the next token; at the end of the list nothing changes |
| EcParser.Parser.PeekNextToken | ec_parser.py:163-165 | returns the token after the current one exactly when there is one |
| EcParser.Parser.PeekTokenAfterNext | ec_parser.py:167-169 | returns the token two ahead, nothing past the end, and crashes when only one token is left |
| EcParser.Parser.MatchType | ec_parser.py:171-175 | consumes the current token when it has the expected kind, otherwise a syntax error |
| EcParser.Parser.MatchResword | ec_parser.py:177-181 | consumes the current token when it has the expected text, otherwise a syntax error |
| EcParser.Parser.CheckSemicolon | ec_parser.py:215-219 | consumes a `;` or gives a syntax error |
| EcParser.Parser.ParsePrimaryExpression | ec_parser.py:385-405 | agrees with the primary-expression specification |
| EcParser.Parser.ParseMultiplicativeExpression | ec_parser.py:373-383 | agrees with the multiplicative-level specification |
| EcParser.Parser.ParseAdditiveExpression | ec_parser.py:361-371 | agrees with the additive-level specification |
| EcParser.Parser.ParseIdentifier | ec_parser.py:296-302 | agrees with the identifier specification |
| EcParser.Parser.ParseRelationalExpression | ec_parser.py:658-668 | agrees with the relational-level specification |
| EcParser.Parser.ParseEqualityExpression | ec_parser.py:646-656 | agrees with the equality-level specification |
| EcParser.Parser.ParseLogicalAndExpression | ec_parser.py:634-644 | agrees with the `&&`-level specification |
| EcParser.Parser.ParseLogicalOrExpression | ec_parser.py:622-632 | agrees with the `\|\|`-level specification |
| EcParser.Parser.TwoParamKeyword | ec_parser.py:575-599 | agrees with the two-operand macro specification |
| EcParser.Parser.OneParamKeyword | ec_parser.py:601-616 | agrees with the one-operand macro specification |
| EcParser.Parser.ParseEcKeywords | ec_parser.py:497-573 | agrees with the macro specification |
| EcParser.Parser.ParseInputStatement | ec_parser.py:407-416 | agrees with the `Scan()` specification |
| EcParser.Parser.ParseLiteral | ec_parser.py:325-358 | agrees with the typed-literal specification |
| EcParser.Parser.ParseInitialization | ec_parser.py:304-323 | agrees with the initialiser specification |
| EcParser.Parser.ParseVariableList | ec_parser.py:274-294 | agrees with the name-list specification, loop included |
| EcParser.Parser.IdentifyDataType | ec_parser.py:266-272 | returns and consumes a data-type word, or gives a syntax error on any other token |
| EcParser.Parser.ParseDeclarationStatement | ec_parser.py:257-264 | agrees with the declaration specification |
| EcParser.Parser.ParseAssignmentUnaryStatement | ec_parser.py:461-495 | agrees with the name-led statement specification |
| EcParser.Parser.ParseAfterName | ec_parser.py:464-493 | agrees with the specification of the branch chain after the name |
| EcParser.Parser.ParseValue | ec_parser.py:427-444 | agrees with the output-value specification |
| EcParser.Parser.ParseOutputValues | ec_parser.py:424-455 | agrees with the output-list specification, loop included |
| EcParser.Parser.ParseOutputStatement | ec_parser.py:418-458 | agrees with the output-statement specification |
| EcParser.Parser.ParseReturnStatement | ec_parser.py:855-875 | agrees with the return specification |
| EcParser.Parser.ParseCondition | ec_parser.py:673-683 | agrees with the specification of a parenthesised condition |
| EcParser.Parser.ParseBlock | ec_parser.py:685-695 | agrees with the specification of a braced body |
| EcParser.Parser.ParseWhileStatement | ec_parser.py:670-697 | agrees with the `while` specification |
| EcParser.Parser.ParseDoWhileStatement | ec_parser.py:699-732 | agrees with the `do ... while` specification |
| EcParser.Parser.ParseForInit | ec_parser.py:741-746 | agrees with the specification of a `for` loop's declaration part |
| EcParser.Parser.ParseForStep | ec_parser.py:752-758 | agrees with the specification of a `for` loop's step |
| EcParser.Parser.ParseForHeader | ec_parser.py:736-763 | agrees with the specification of a `for` loop's head |
| EcParser.Parser.ParseForRest | ec_parser.py:749-763 | agrees with the specification of the head after its first `;` |
| EcParser.Parser.ParseForStatement | ec_parser.py:734-777 | agrees with the `for` specification |
| EcParser.Parser.ParseIfStatement | ec_parser.py:779-853 | agrees with the `if` specification, `elseif`/`else` loop included |
| EcParser.Parser.IdentifyStatements | ec_parser.py:221-255 | agrees with the statement specification |
| EcParser.Parser.ParseBody | ec_parser.py:206-213 | agrees with the body specification, loop included |
| EcParser.Parser.ParseEcProgStatement | ec_parser.py:184-203 | returns exactly the program specification's result for the whole token list |
| EcParser.Parse | ec_parser.py:184-203 | parsing a token list with a fresh parser gives the program specification's result |
| ParseSpec.Adv | ec_parser.py:158-161 | consuming moves forward by one, and stands still only at the end |
| ParseSpec.ParsePrimary | ec_parser.py:385-405 | a primary expression starts at an operand token: a number, a name or `(` |
| ParseSpec.MultiplicativeTail | ec_parser.py:376-381 | the loop stops at the first token that is not `*`, `/` or `%` |
| ParseSpec.ParseMultiplicative | ec_parser.py:373-383 | a product starts at an operand token and stays within the list |
| ParseSpec.AdditiveTail | ec_parser.py:364-369 | the loop stops at the first token that is not `+` or `-` |
| ParseSpec.ParseAdditive | ec_parser.py:361-371 | a sum starts at an operand token and stays within the list |
| ParseSpec.ParseRelational | ec_parser.py:658-668 | a comparison starts at an operand token and stays within the list |
| ParseSpec.EqualityTail | ec_parser.py:649-654 | the loop stops at the first token that is not `==` or `!=` |
| ParseSpec.ParseEquality | ec_parser.py:646-656 | an equality starts at an operand token and stays within the list |
| ParseSpec.LogicalAndTail | ec_parser.py:637-642 | the loop stops at the first token that is not `&&` |
| ParseSpec.ParseLogicalAnd | ec_parser.py:634-644 | a conjunction starts at an operand token and stays within the list |
| ParseSpec.LogicalOrTail | ec_parser.py:625-630 | the loop stops at the first token that is not `\|\|` |
| ParseSpec.ParseLogicalOr | ec_parser.py:622-632 | a disjunction starts at an operand token and stays within the list |
| ParseSpec.ParseTwoParam | ec_parser.py:575-599 | a two-operand macro consumes at least one token |
| ParseSpec.ParseOneParam | ec_parser.py:601-616 | a one-operand macro consumes at least one token |
| ParseSpec.ParseMacro | ec_parser.py:497-573 | a macro consumes at least one token |
| ParseSpec.ParseInput | ec_parser.py:407-416 | `Scan(` leaves the cursor on its `)` |
| ParseSpec.ParseIdentifier | ec_parser.py:296-302 | a name is one identifier token, consumed |
| ParseSpec.ParseDeclaration | ec_parser.py:257-264 | a declaration consumes at least one token and builds a declaration node |
| ParseSpec.ParseAssignmentUnary | ec_parser.py:461-495 | a name-led statement consumes at least one token |
| ParseSpec.OutputValues | ec_parser.py:426-453 | the value list ends on a `)` |
| ParseSpec.ParseOutput | ec_parser.py:418-458 | an output statement consumes its tokens and builds an output node |
| ParseSpec.ParseReturn | ec_parser.py:855-875 | a return statement consumes its tokens and builds a return node; when the token after `return` cannot start a value, the value is left unbound and the parser crashes |
| ParseSpec.ParseForStep | ec_parser.py:752-758 | a step that binds nothing consumes nothing and stands on a name |
| ParseSpec.ParseCondition | ec_parser.py:673-683 | a condition starts at `(` and consumes its tokens |
| ParseSpec.ParseBlock | ec_parser.py:685-695 | a block starts at `{` and consumes its tokens |
| ParseSpec.ParseWhile | ec_parser.py:670-697 | a `while` statement consumes its tokens and builds a `while_loop` node |
| ParseSpec.ParseDoWhile | ec_parser.py:699-732 | a `do` statement consumes its tokens and builds a `do_while_loop` node |
| ParseSpec.ParseFor | ec_parser.py:734-777 | a `for` statement consumes its tokens and builds a `for` node |
| ParseSpec.ParseIf | ec_parser.py:779-853 | an `if` statement consumes its tokens and builds a conditional node |
| ParseSpec.Terminated | ec_parser.py:223-246 | the `;` after a statement keeps its node and never moves the cursor back |
| ParseSpec.ParseStatement | ec_parser.py:221-255 | a statement always consumes at least one token |
| ParseSpec.BodyStatements | ec_parser.py:209-211 | the statement loop stops only at a `}` |
| ParseSpec.ParseBody | ec_parser.py:206-213 | a body ends at a `}`, which it does not consume |
| ParserProps.BodyStatementsInOrder | ec_parser.py:206-213 | the body keeps its statements in source order: parsing after earlier statements appends to them |
| ParserProps.OutputValuesInOrder | ec_parser.py:424-453 | the output statement keeps its values in source order |
| ParserProps.VariableListInOrder | ec_parser.py:284-291 | a declaration keeps its names in source order |
| ParserProps.LeftChainExtend | ec_parser.py:364-369 | a left chain over an extended operand is a left chain over the original one |
| ParserProps.AdditiveTailIsLeftChain | ec_parser.py:361-371 | `+` and `-` group to the left: the result is a chain of operators grown from the first operand |
| ParserProps.MultiplicativeTailIsLeftChain | ec_parser.py:373-383 | `*`, `/` and `%` group to the left |
| ParserProps.EqualityTailIsLeftChain | ec_parser.py:646-656 | `==` and `!=` group to the left |
| ParserProps.LogicalAndTailIsLeftChain | ec_parser.py:634-644 | `&&` groups to the left |
| ParserProps.LogicalOrTailIsLeftChain | ec_parser.py:622-632 | `\|\|` groups to the left |
| ParserProps.RelationalOperators | ec_parser.py:661 | the relational level accepts exactly `>`, `<` and `<=` |
| ParserProps.RelationalTakesAtMostOne | ec_parser.py:658-668 | the relational level takes at most one operator; after `>=` it returns the left operand unchanged |
| ParserProps.LoneOperand | ec_parser.py:385-405 | a single number or name followed by no operator is a whole expression at the additive and `\|\|` levels |
| ParserProps.ArithmeticOperand | ec_parser.py:361-405 | a single number or name followed by no arithmetic operator is a whole arithmetic expression |
| ParserProps.PrimaryStarts | ec_parser.py:385-405 | a primary expression needs an operand token; any other token is a syntax error; `(` as the last token crashes |
| ParserProps.LiteralTypeTests | ec_parser.py:337-356 | the `bool` type takes any token but `Scan`, a macro and `(`; `float` rejects an int literal; `int` rejects a string literal |
| ParserProps.NumericLiterals | ec_parser.py:337-340 | an int literal under type int, and a float literal under type float, start an arithmetic expression |
| ParserProps.InitializerOperators | ec_parser.py:304-323 | numeric types have no initialiser without an assignment operator; text types need `=`; an initialiser follows an assignment operator |
| ParserProps.NameLedStatement | ec_parser.py:461-495 | a name-led statement is a macro exactly when a macro keyword follows the operator, and otherwise an input, an assignment or a unary statement |
| ParserProps.NameLedOperators | ec_parser.py:468-491 | input needs `= Scan`; an assignment carries its operator and a text literal needs `=`; a unary statement carries `++` or `--` |
| ParserProps.AfterNameKinds | ec_parser.py:464-493 | after a name, the statement is a macro exactly when a macro keyword follows the operator, and otherwise an input, an assignment or a unary statement |
| ParserProps.AfterNameInput | ec_parser.py:468-472 | after a name, the input form needs `=` followed by `Scan` |
| ParserProps.AfterNameAssignment | ec_parser.py:473-487 | an assignment after a name carries its operator, and a text literal needs `=` |
| ParserProps.AfterNameUnary | ec_parser.py:488-491 | a unary statement after a name carries `++` or `--` |
| ParserProps.NameLedStatementRejects | ec_parser.py:492-493 | a name followed by neither an assignment nor a unary operator, nor by a macro, is a syntax error |
| ParserProps.MacroShapeCoversKeywords | ec_parser.py:497-573 | a word has an expansion exactly when it is a macro keyword |
| ParserProps.SquareRootEntries | ec_parser.py:497-549 | CV1 multiplies and CA3 divides, each wrapped in a square root |
| ParserProps.SquareRootMacros | ec_parser.py:497-573 | exactly `CV1` and `CA3` wrap their expansion in a square root |
| ParserProps.MacroNeedsKeyword | ec_parser.py:497-573 | a word that is not a macro keyword is a syntax error |
| ParserProps.TwoParamShape | ec_parser.py:575-599 | a two-operand macro parses exactly when `( a , b )` follows it, and then consumes those five tokens |
| ParserProps.TwoParamRejects | ec_parser.py:575-599 | without `( a , b )` after it, a two-operand macro is a syntax error |
| ParserProps.OpenedTwoParam | ec_parser.py:575-581 | after `( a` a two-operand macro goes on with its second operand, keeping `a` |
| ParserProps.SecondOperandRejects | ec_parser.py:582-595 | `( a` followed by anything but `, b )` is a syntax error |
| ParserProps.OneParamShape | ec_parser.py:601-616 | a one-operand macro parses exactly when `( a )` follows it, and then consumes those three tokens |
| ParserProps.ForInitIsAList | ec_parser.py:741-746 | a `for` loop's first part is always a list of names; a data-type word there is a syntax error |
| ParserProps.ForStepIsBound | ec_parser.py:752-758 | a `for` head that parses always has a step |
| ParserProps.StatementTerminators | ec_parser.py:221-246 | declarations, name-led statements, output, return and `do` loops end on a consumed `;` |
| ParserProps.CompoundStatements | ec_parser.py:247-253 | a statement led by `while`, `for` or `if` is that construct alone, with no `;` after it |
| ParserProps.ConditionShape | ec_parser.py:672-682 | `( c )` parses exactly when the `(`, a whole condition and a `)` after it are there, and ends just past that `)` |
| ParserProps.BlockShape | ec_parser.py:685-695 | a block needs `{` and a body, and ends just past the `}` that closes the body, or on it when it is the last token |
| ParserProps.WhileShape | ec_parser.py:670-697 | `while ( c ) { b }` parses exactly when its condition and block do; it is the `while_loop` of `c` over `b` and ends just past the `}`, or on it when it is the last token |
| ParserProps.DoWhileShape | ec_parser.py:699-732 | `do { b } while ( c )` needs a word with the text `while`, of any kind, after the block; it is the `do_while_loop` of `c` over `b` and ends just past the condition's `)`, where its `;` is expected |
| ParserProps.ForShape | ec_parser.py:734-777 | a `for` loop keeps its head's parts, always has a step, and ends just past the `}`, or on it when it is the last token |
| ParserProps.AlternativesAccumulate | ec_parser.py:809-851 | the `elseif` parts are appended in the order read, an `else` read replaces an earlier one, and the loop ends and fails the same way whatever came before |
| ParserProps.AlternativesPaired | ec_parser.py:809-837 | each `elseif` condition comes with its body: the two lists have the same length |
| ParserProps.ElseReplacesEarlier | ec_parser.py:838-851 | the `else` body kept is the last one read |
| ParserProps.AlternativesClosed | ec_parser.py:809-851 | the loop over alternatives ends where it started, or just past a `}` (on it when it is the last token) |
| ParserProps.IfShape | ec_parser.py:779-853 | an `if` statement is its condition, its body and the alternatives read after it, paired in order, and ends just past a `}`, or on it when it is the last token |
| ParserProps.AlternativesWithoutElseif | ec_parser.py:809-851 | with no `elseif` reserved word in the tokens, the loop adds no condition and no body |
| ParserProps.IfWithoutElseif | ec_parser.py:779-853 | with no `elseif` reserved word in the tokens, an `if` statement has no `elseif` part |
| ParserProps.LexedIfHasNoElseif | ec_parser.py:809-837 | on tokens from a successful lexing pass, an `if` statement has no `elseif` part |
| ParserProps.StuckCursorFails | ec_parser.py:158-161 | at the last token, where consuming stands still, no statement parses |
| ParserProps.StuckCursorEmptyBody | ec_parser.py:206-213 | at the last token a body parses only when that token is `}`, and then it is empty |
| ParserProps.ProgramRejects | ec_parser.py:184-195 | no tokens, a first word other than `Main`, or no `{` after it is a syntax error |
| ParserProps.ProgramShape | ec_parser.py:184-203 | a program is `Main {`, a body, and the `}` the body stops at |
| ParserExamples.SubtractionGroupsLeft | ec_parser.py:361-371 | `a - b - c` parses as `(a - b) - c` |
| ParserExamples.ProductBindsTighter | ec_parser.py:361-383 | `a + b * c` parses as `a + (b * c)` |
| ParserExamples.ChainedComparisonStops | ec_parser.py:658-668 | in `a < b < c` the relational level stops before the second `<` |
| ParserExamples.GreaterOrEqualStops | ec_parser.py:658-668 | in `x >= 1` the relational level stops before `>=` |
| ParserExamples.OpenParenAtEndCrashes | ec_parser.py:394-396 | a `(` as the only token crashes the parser |
| ParserExamples.ParenthesisedReturnCrashes | ec_parser.py:855-875 | `return ( x )` crashes the parser |
| ParserExamples.IntegerValue | ec_parser.py:337-338 | the literal `42` under type int is the number 42 |
| ParserExamples.InitialValue | ec_parser.py:304-310 | `= 42` in an int declaration is the number 42 |
| ParserExamples.DeclaredNames | ec_parser.py:274-294 | `x = 42` declares the one name `x` with initialiser 42 |
| ParserExamples.DeclarationNode | ec_parser.py:257-264 | `int x = 42` is a declaration of `x` with initialiser 42 |
| ParserExamples.DeclarationStatement | ec_parser.py:221-226 | `int x = 42 ;` is one declaration statement |
| ParserExamples.DoWhileByText | ec_parser.py:715-718 | `do { } while ( x )` parses when `while` is a name token: only its text is compared |
| ParserExamples.SmallProgram | ec_parser.py:184-203 | `Main { int x = 42 ; }` is a program of one declaration |
| ParserExamples.MissingFinalBraceAccepted | ec_parser.py:158-213 | `Main { while ( x ) { }`, with no `}` of its own, is accepted as a program of one loop |

## Left out

- Reading the source file (ec_lexer.py:6-26) is left out. It uses the file system and spreadsheet libraries. The model starts from the text.
- The interactive shell and the error classes are left out. shell.py and errors.py are not part of this model.
- Node and token printing (`__repr__`) is left out.
- Numeric values are left out. A number keeps its digit text, because the integer and float conversions have no bearing on the syntax.
- Error messages are left out. Each error keeps only its class.
- `LexCrash` and `ParseCrash` stand for the interpreter's own errors. `LexCrash` is the type error of `==` followed by a character. `ParseCrash` is an attribute read on the missing token, an unbound return value, or the recursion limit. The model does not say which one occurs.
- KindName: that the kind names are all different is not proved. The parser compares kinds, never names, so nothing in the model depends on it.
- The parser's split helpers have no method of their own in the source: ParseAfterName, ParseValue, ParseOutputValues, ParseCondition, ParseBlock, ParseForInit, ParseForStep, ParseForHeader, ParseForRest and ForStepClose. Each covers the cited lines of its enclosing method.
- The lexer's split helpers have no method of their own in the source either: MeetQuote, ScanSymbol, ScanOtherSymbol, ScanComparison and ScanDelimiter, with the specification functions ArithmeticStep, OtherSymbolStep, ComparisonStep and DelimiterStep. They cut the main loop's one long branch chain into groups of characters.
- ParseSpec.SecondParam: it covers the `, b )` part of ec_parser.py:575-599. Its own contract states only progress; TwoParamShape states what it accepts.
- ParseSpec.ParseTwoParam: its own contract states only progress. TwoParamShape and TwoParamRejects state its exact shape.
- ParseSpec.ParseOneParam: its own contract states only progress. OneParamShape states its exact shape.
- ParseSpec.ParseMacro: its own contract states only progress. MacroNeedsKeyword and MacroShapeCoversKeywords state what it accepts.
- ParseSpec.ParseLiteral: its own contract states only that the cursor stays in bounds. LiteralTypeTests and NumericLiterals state what it accepts.
- ParseSpec.ParseInitialization: its own contract states only that the cursor stays in bounds. InitializerOperators states what it accepts.
- ParseSpec.ParseVariableList: its own contract states only that the cursor stays in bounds. VariableListInOrder states what it collects.
- LexSpec.SymbolStep: its own contract states only progress. Which symbols fail, and how, is stated by OperatorGlue, LoneLogicalFails, SemicolonRule, BracketAlwaysEmitted and TokenStepFailures.
- LexSpec.TokenStep: its own contract states only progress. TokenStepFailures states exactly where a step fails; OperatorGlue, LoneLogicalFails, SemicolonRule, BracketAlwaysEmitted and UnlistedCharacterFails state how.
- ParseSpec.ParseStatement: its own contract states only progress. Which statements take a `;` is stated by StatementTerminators and CompoundStatements.
- ParseSpec.ParseCondition: its own contract states progress and the leading `(`. ConditionShape states that it ends just past its `)`; WhileShape, DoWhileShape and IfShape state its place in each construct.
- ParseSpec.ParseBlock: its own contract states progress and the leading `{`. BlockShape states its body and closing `}`.
- ParseSpec.ParseWhile: its own contract states progress and the kind of node. WhileShape states its shape.
- ParseSpec.ParseDoWhile: its own contract states progress and the kind of node. DoWhileShape states its shape.
- ParseSpec.ParseFor: its own contract states progress and the kind of node. ForShape states its shape.
- ParseSpec.ParseIf: its own contract states progress and the kind of node. IfShape states its shape.
- ParseSpec.ParseAlternatives: its own contract states only progress. AlternativesAccumulate, AlternativesPaired, ElseReplacesEarlier and AlternativesClosed state what it collects.
