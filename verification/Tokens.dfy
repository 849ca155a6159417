/** Tokens of the expression language. A string's characters stand for the bytes of the source text. */
module Tokens {
  import opened Options

  datatype Kind =
    | Str | Int | Float | Bool | NullLit | Ident
    | Dot | LBracket | RBracket | LParen | RParen | LBrace | RBrace | Comma | Colon | Pipe | Arrow
    | Eq | Neq | Gt | Gte | Lt | Lte | And | Or | Not
    | Plus | Minus | Star | Slash | Percent | NullCoalesce | OptionalChain | Question
    | EOF

  datatype Token = Token(kind: Kind, value: string)

  const EOF_TOKEN := Token(EOF, "")

  predicate IsSpace(c: char) {
    c == ' ' || '\t' <= c <= '\r' || c as int == 0x85 || c as int == 0xA0
  }

  predicate IsDigit(c: char) {
    '0' <= c <= '9'
  }

  predicate IsIdentStart(c: char) {
    c == '_' || c == '@' || 'a' <= c <= 'z' || 'A' <= c <= 'Z'
  }

  predicate IsIdentChar(c: char) {
    IsIdentStart(c) || IsDigit(c)
  }

  function TwoCharOp(a: char, b: char): Option<Kind> {
    if b == '=' then
      if a == '=' then Some(Eq) else if a == '!' then Some(Neq)
      else if a == '>' then Some(Gte) else if a == '<' then Some(Lte) else None
    else if a == '&' && b == '&' then Some(And)
    else if a == '|' && b == '|' then Some(Or)
    else if a == '?' && b == '?' then Some(NullCoalesce)
    else if a == '?' && b == '.' then Some(OptionalChain)
    else if a == '=' && b == '>' then Some(Arrow)
    else None
  }

  function OneCharOp(c: char): Option<Kind> {
    match c
    case '.' => Some(Dot)
    case '[' => Some(LBracket)
    case ']' => Some(RBracket)
    case '(' => Some(LParen)
    case ')' => Some(RParen)
    case '{' => Some(LBrace)
    case '}' => Some(RBrace)
    case ',' => Some(Comma)
    case ':' => Some(Colon)
    case '|' => Some(Pipe)
    case '>' => Some(Gt)
    case '<' => Some(Lt)
    case '!' => Some(Not)
    case '+' => Some(Plus)
    case '-' => Some(Minus)
    case '*' => Some(Star)
    case '/' => Some(Slash)
    case '%' => Some(Percent)
    case '?' => Some(Question)
    case _ => None
  }

  /** After these tokens an operand is expected, so `-` before a digit is a sign. */
  predicate OperandExpected(last: Kind) {
    last in {LParen, LBracket, Comma, Colon, Pipe, Arrow, Eq, Neq, Gt, Gte, Lt, Lte, And, Or, Not,
             Plus, Minus, Star, Slash, Percent, NullCoalesce, Question}
  }

  function Unescape(c: char): string {
    match c
    case 'n' => "\n"
    case 't' => "\t"
    case '\\' => "\\"
    case '"' => "\""
    case '\'' => "'"
    case _ => ['\\', c]
  }

  function Word(word: string): Token {
    if word == "true" || word == "false" then Token(Bool, word)
    else if word == "null" then Token(NullLit, word)
    else Token(Ident, word)
  }

  // ---------- What the next token of a text is ----------

  function DigitRun(s: string): (n: nat)
    ensures n <= |s|
  {
    if s != "" && IsDigit(s[0]) then 1 + DigitRun(s[1..]) else 0
  }

  function IdentRun(s: string): (n: nat)
    ensures n <= |s|
  {
    if s != "" && IsIdentChar(s[0]) then 1 + IdentRun(s[1..]) else 0
  }

  function WholePart(s: string): (n: nat)
    ensures n <= |s|
  {
    if s != "" && s[0] == '-' then 1 + DigitRun(s[1..]) else DigitRun(s)
  }

  predicate HasFraction(s: string) {
    var n := WholePart(s);
    n + 1 < |s| && s[n] == '.' && IsDigit(s[n + 1])
  }

  function Number(s: string): (r: (Token, nat))
    ensures r.1 <= |s|
  {
    var n := WholePart(s);
    if HasFraction(s) then
      var end := n + 1 + DigitRun(s[n + 1..]);
      (Token(Float, s[..end]), end)
    else (Token(Int, s[..n]), n)
  }

  /** The value of a string literal whose opening quote has been read, and what it takes with the closing quote. */
  function StringBody(s: string, quote: char): (r: Option<(string, nat)>)
    ensures r.Some? ==> 0 < r.value.1 <= |s|
  {
    if s == "" then None
    else if s[0] == '\\' && |s| > 1 then
      match StringBody(s[2..], quote)
      case None => None
      case Some((v, n)) => Some((Unescape(s[1]) + v, 2 + n))
    else if s[0] == quote then Some(("", 1))
    else
      match StringBody(s[1..], quote)
      case None => None
      case Some((v, n)) => Some(([s[0]] + v, 1 + n))
  }

  /** The token at the start of a text that does not start with a space, and its length. */
  function NextToken(s: string, operand: bool): (r: Option<(Token, nat)>)
    requires s != ""
    ensures r.Some? ==> 0 < r.value.1 <= |s|
  {
    var c := s[0];
    if c == '"' || c == '\'' then
      match StringBody(s[1..], c)
      case None => None
      case Some((v, n)) => Some((Token(Str, v), 1 + n))
    else if IsDigit(c) then Some(Number(s))
    else if IsIdentStart(c) then Some((Word(s[..IdentRun(s)]), IdentRun(s)))
    else if |s| > 1 && TwoCharOp(c, s[1]).Some? then Some((Token(TwoCharOp(c, s[1]).value, s[..2]), 2))
    else if c == '-' && |s| > 1 && IsDigit(s[1]) && operand then Some(Number(s))
    else if OneCharOp(c).Some? then Some((Token(OneCharOp(c).value, [c]), 1))
    else None
  }

  /** All tokens of a text, with the closing EOF. */
  function LexFrom(s: string, operand: bool): Option<seq<Token>>
    decreases |s|
  {
    if s == "" then Some([EOF_TOKEN])
    else if IsSpace(s[0]) then LexFrom(s[1..], operand)
    else match NextToken(s, operand)
      case None => None
      case Some((t, n)) =>
        match LexFrom(s[n..], OperandExpected(t.kind))
        case None => None
        case Some(ts) => Some([t] + ts)
  }
}
