/**
 * The lookup tables shared by the lexer and the parser: character sets,
 * token kinds, the data-type map, the reserved words and the macro keywords.
 *
 * Four names that the lexer and the parser use are not bound in the table
 * file; they are stated here as assumptions and marked "assumed":
 * BoolTypes, TokenDataTypes, TokenAssOps, TokenUnrOps. The comma kind
 * (TT_COMMA) is assumed too, with the name the parser tests, DEL_COMMA.
 */
module Constants {
  import opened Wrappers

  // ---------------------------------------------------------------------
  // Character sets
  // ---------------------------------------------------------------------

  const Digits: string := "0123456789"
  const LowerLetters: string := "abcdefghijklmnopqrstuvwxyz"
  const UpperLetters: string := "ABCDEFGHIJKLMNOPQRSTUVWXYZ"
  /** string.ascii_letters: the lower-case letters, then the upper-case ones. */
  const Letters: string := LowerLetters + UpperLetters
  const Alphanumeric: string := Digits + Letters

  predicate IsDigit(c: char) { '0' <= c <= '9' }
  predicate IsLetter(c: char) { 'a' <= c <= 'z' || 'A' <= c <= 'Z' }
  predicate IsAlphanumeric(c: char) { IsDigit(c) || IsLetter(c) }

  // ---------------------------------------------------------------------
  // Token kinds
  // ---------------------------------------------------------------------

  /** One constructor per token-kind constant, plus the three assumed kinds. */
  datatype Kind =
    | DatatypeChar | DatatypeInt | DatatypeFloat | DatatypeStr | DatatypeBool
    | LitInt | LitFlt | LitStr | LitChar
    | OpAss | OpAddAss | OpSubAss | OpMulAss | OpDivAss | OpModAss
    | OpAdd | OpSub | OpMul | OpDiv | OpMod | OpExp
    | OpInc | OpDec
    | OpEqt | OpNeqt | OpGrt | OpLst | OpGrtEq | OpLstEq | OpLogAnd | OpLogOr | OpLogNot
    | DelLParen | DelRParen | DelLBracket | DelRBracket | DelLBrace | DelRBrace
    | DelSemicolon | DelSingleQuote | DelDoubleQuote
    | CommentSingleLine | CommentMultiOpen | CommentMultiClose
    | Identifier | Keyword | ReservedWord
    | LitBoolTrue | LitBoolFalse   // assumed: the values of BOOL_TYPES
    | DelComma                     // assumed: TT_COMMA

  /** The string each token-kind constant is bound to. */
  function KindName(k: Kind): string {
    match k
    case DatatypeChar => "DATATYPE_CHAR"
    case DatatypeInt => "DATATYPE_INT"
    case DatatypeFloat => "DATATYPE_FLOAT"
    case DatatypeStr => "DATATYPE_STR"
    case DatatypeBool => "DATATYPE_BOOL"
    case LitInt => "LIT_INT"
    case LitFlt => "LIT_FLT"
    case LitStr => "LIT_STR"
    case LitChar => "LIT_CHAR"
    case OpAss => "OP_ASS"
    case OpAddAss => "OP_ADDASS"
    case OpSubAss => "OP_SUBASS"
    case OpMulAss => "OP_MULASS"
    case OpDivAss => "OP_DIVASS"
    case OpModAss => "OP_MODASS"
    case OpAdd => "OP_ADD"
    case OpSub => "OP_SUB"
    case OpMul => "OP_MUL"
    case OpDiv => "OP_DIV"
    case OpMod => "OP_MOD"
    case OpExp => "OP_EXP"
    case OpInc => "OP_INC"
    case OpDec => "OP_DEC"
    case OpEqt => "OP_EQT"
    case OpNeqt => "OP_NEQT"
    case OpGrt => "OP_GRT"
    case OpLst => "OP_LST"
    case OpGrtEq => "OP_GR"
    case OpLstEq => "OP_LSTEQ"
    case OpLogAnd => "OP_LOGAND"
    case OpLogOr => "OP_LOGOR"
    case OpLogNot => "OP_LOGNOT"
    case DelLParen => "DEL_LPAREN"
    case DelRParen => "DEL_RPAREN"
    case DelLBracket => "DEL_LBRACKET"
    case DelRBracket => "DEL_RBRACKET"
    case DelLBrace => "DEL_LBRACE"
    case DelRBrace => "DEL_RBRACE"
    case DelSemicolon => "DEL_SEMICOLON"
    case DelSingleQuote => "DEL_SGLQUOTE"
    case DelDoubleQuote => "DEL_DBLQUOTE"
    case CommentSingleLine => "COMMENT_SGLLINE"
    case CommentMultiOpen => "COMMENT_MLTLINE_OPEN"
    case CommentMultiClose => "COMMENT_MLTLINE_CLOSE"
    case Identifier => "IDENTIFIER"
    case Keyword => "KEYWORD"
    case ReservedWord => "RESERVED_WORD"
    case LitBoolTrue => "LIT_BOOLTRUE"
    case LitBoolFalse => "LIT_BOOLFALSE"
    case DelComma => "DEL_COMMA"
  }

  // ---------------------------------------------------------------------
  // Keyword tables
  // ---------------------------------------------------------------------

  const DataTypes: map<string, Kind> := map[
    "char" := DatatypeChar,
    "int" := DatatypeInt,
    "float" := DatatypeFloat,
    "string" := DatatypeStr,
    "bool" := DatatypeBool
  ]

  /** Assumed: BOOL_TYPES maps the two boolean words to the literal kinds. */
  const BoolTypes: map<string, Kind> := map["true" := LitBoolTrue, "false" := LitBoolFalse]

  const ReservedWords: seq<string> := [
    "if", "else", "break", "Print", "PrintLine", "Scan", "return",
    "for", "while", "do", "true", "false", "continue", "Main"
  ]

  const Keywords: seq<string> := [
    "CV1", "CV2", "CV3", "CVK", "CKV", "CVM", "CMV", "CMK",
    "CO1", "CO2", "CO3", "CW1", "CW2", "CW3", "CWK", "CKM",
    "CMW", "CWM", "CWH", "CKH", "CMH", "CHW", "CHK", "CHM",
    "CA1", "CA2", "CA3", "CMA", "CAM", "CCH", "CCA",
    "CHTM", "CMTS", "CHTS", "CMTH", "CSTM", "CSTH"
  ]

  /** Assumed: TOKEN_DATA_TYPES is the five data-type kinds. */
  const TokenDataTypes: set<Kind> := {DatatypeChar, DatatypeInt, DatatypeFloat, DatatypeStr, DatatypeBool}

  /** Assumed: TOKEN_ASS_OPS is the six assignment-operator kinds. */
  const TokenAssOps: set<Kind> := {OpAss, OpAddAss, OpSubAss, OpMulAss, OpDivAss, OpModAss}

  /** Assumed: TOKEN_UNR_OPS is increment and decrement. */
  const TokenUnrOps: set<Kind> := {OpInc, OpDec}
}
