/** Expressions, how they are written, and the parser as a function. */
module Syntax {
  import opened Options
  import opened Tokens

  // The trees the parser builds, and the concrete trees that record how they were written (parentheses, pipe or method
  // form). A concrete tree flattens to tokens and abstracts to an expression.

  datatype Literal = LString(s: string) | LInt(n: int) | LFloat(text: string) | LBool(b: bool) | LNull

  datatype Expr =
    | Lit(lit: Literal)
    | Name(name: string)
    | DotExpr(obj: Expr, field: string)
    | OptionalChainExpr(obj: Expr, field: string)
    | IndexExpr(obj: Expr, index: Expr)
    | CallExpr(fn: Expr, args: seq<Expr>)
    | PipeExpr(value: Expr, filter: string, args: seq<Expr>)
    | UnaryExpr(operand: Expr)
    | BinaryExpr(op: string, left: Expr, right: Expr)
    | NullCoalesceExpr(left: Expr, right: Expr)
    | TernaryExpr(condition: Expr, thn: Expr, els: Expr)
    | LambdaExpr(param: string, body: Expr)
    | ArrayExpr(elements: seq<Expr>)
    | ObjectExpr(keys: seq<string>, values: seq<Expr>)

  datatype Cst =
    | CToken(tok: Token)
    | CParen(inner: Cst)
    | CLambda(param: string, body: Cst)
    | CArray(elements: seq<Cst>)
    | CObject(keys: seq<Token>, values: seq<Cst>)
    | CDot(obj: Cst, field: string)
    | CMethod(obj: Cst, field: string, args: seq<Cst>)
    | COptional(obj: Cst, field: string)
    | CIndex(obj: Cst, index: Cst)
    | CCall(obj: Cst, args: seq<Cst>)
    | CNot(operand: Cst)
    | CBinary(tok: Token, left: Cst, right: Cst)
    | CTernary(condition: Cst, thn: Cst, els: Cst)
    | CPipe(value: Cst, filter: string, args: seq<Cst>)
    | CPipeBare(value: Cst, filter: string)

  // ---------- Literals ----------

  function DigitValue(c: char): nat
    requires IsDigit(c)
  {
    c as int - '0' as int
  }

  /** The value of a run of digits; other characters do not occur. */
  function Magnitude(s: string): nat {
    if s == "" then 0
    else 10 * Magnitude(s[..|s| - 1]) + if IsDigit(s[|s| - 1]) then DigitValue(s[|s| - 1]) else 0
  }

  /** strconv.ParseInt(s, 10, 64) on text the lexer produced. */
  function ParseInt64(s: string): Option<int> {
    var n: int := if s != "" && s[0] == '-' then -(Magnitude(s[1..]) as int) else Magnitude(s);
    if -0x8000_0000_0000_0000 <= n < 0x8000_0000_0000_0000 then Some(n) else None
  }

  /** 2^1024 - 2^970: from here on a decimal rounds to more than the largest 64-bit float. */
  const FLOAT_LIMIT: int :=
    0xFFFF_FFFF_FFFF_FC00_0000_0000_0000_0000_0000_0000_0000_0000_0000_0000_0000_0000_0000_0000_0000_0000_0000_0000_0000_0000_0000_0000_0000_0000_0000_0000_0000_0000_0000_0000_0000_0000_0000_0000_0000_0000_0000_0000_0000_0000_0000_0000_0000_0000_0000_0000_0000_0000_0000_0000_0000_0000_0000_0000_0000_0000_0000_0000_0000_0000

  function BeforePoint(s: string): string {
    if s == "" || s[0] == '.' then "" else [s[0]] + BeforePoint(s[1..])
  }

  /** strconv.ParseFloat(s, 64) on text the lexer produced fails only when the value is out of range. */
  predicate FloatInRange(s: string) {
    Magnitude(BeforePoint(if s != "" && s[0] == '-' then s[1..] else s)) < FLOAT_LIMIT
  }

  function LiteralOf(t: Token): Option<Literal> {
    match t.kind
    case Str => Some(LString(t.value))
    case Int => if ParseInt64(t.value).Some? then Some(LInt(ParseInt64(t.value).value)) else None
    case Float => if FloatInRange(t.value) then Some(LFloat(t.value)) else None
    case Bool => Some(LBool(t.value == "true"))
    case NullLit => Some(LNull)
    case _ => None
  }

  predicate IsLiteral(k: Kind) {
    k in {Str, Int, Float, Bool, NullLit}
  }

  // ---------- Abstraction and flattening ----------

  function Operator(t: Token): string {
    if t.kind == Or then "||" else if t.kind == And then "&&" else t.value
  }

  function Abstract(c: Cst): Expr
    decreases c, 0
  {
    match c
    case CToken(t) => if LiteralOf(t).Some? then Lit(LiteralOf(t).value) else Name(t.value)
    case CParen(inner) => Abstract(inner)
    case CLambda(param, body) => LambdaExpr(param, Abstract(body))
    case CArray(es) => ArrayExpr(AbstractAll(es))
    case CObject(ks, vs) => ObjectExpr(KeyNames(ks), AbstractAll(vs))
    case CDot(o, f) => DotExpr(Abstract(o), f)
    case CMethod(o, f, args) => PipeExpr(Abstract(o), f, AbstractAll(args))
    case COptional(o, f) => OptionalChainExpr(Abstract(o), f)
    case CIndex(o, i) => IndexExpr(Abstract(o), Abstract(i))
    case CCall(o, args) => CallExpr(Abstract(o), AbstractAll(args))
    case CNot(o) => UnaryExpr(Abstract(o))
    case CBinary(t, l, r) =>
      if t.kind == NullCoalesce then NullCoalesceExpr(Abstract(l), Abstract(r))
      else BinaryExpr(Operator(t), Abstract(l), Abstract(r))
    case CTernary(x, t, e) => TernaryExpr(Abstract(x), Abstract(t), Abstract(e))
    case CPipe(v, f, args) => PipeExpr(Abstract(v), f, AbstractAll(args))
    case CPipeBare(v, f) => PipeExpr(Abstract(v), f, [])
  }

  function AbstractAll(cs: seq<Cst>): (es: seq<Expr>)
    ensures |es| == |cs|
    decreases cs, 1
  {
    if cs == [] then [] else [Abstract(cs[0])] + AbstractAll(cs[1..])
  }

  function KeyNames(ks: seq<Token>): (names: seq<string>)
    ensures |names| == |ks|
  {
    if ks == [] then [] else [ks[0].value] + KeyNames(ks[1..])
  }

  const DOT := Token(Dot, ".")
  const OPTIONAL := Token(OptionalChain, "?.")
  const LPAREN := Token(LParen, "(")
  const RPAREN := Token(RParen, ")")
  const LBRACKET := Token(LBracket, "[")
  const RBRACKET := Token(RBracket, "]")
  const LBRACE := Token(LBrace, "{")
  const RBRACE := Token(RBrace, "}")
  const COMMA := Token(Comma, ",")
  const COLON := Token(Colon, ":")
  const PIPE := Token(Pipe, "|")
  const ARROW := Token(Arrow, "=>")
  const NOT := Token(Not, "!")
  const QUESTION := Token(Question, "?")

  function Id(name: string): Token {
    Token(Ident, name)
  }

  function Flatten(c: Cst): seq<Token>
    decreases c, 0
  {
    match c
    case CToken(t) => [t]
    case CParen(inner) => [LPAREN] + Flatten(inner) + [RPAREN]
    case CLambda(param, body) => [Id(param), ARROW] + Flatten(body)
    case CArray(es) => [LBRACKET] + FlattenList(es) + [RBRACKET]
    case CObject(ks, vs) => [LBRACE] + FlattenFields(ks, vs) + [RBRACE]
    case CDot(o, f) => Flatten(o) + [DOT, Id(f)]
    case CMethod(o, f, args) => Flatten(o) + [DOT, Id(f), LPAREN] + FlattenList(args) + [RPAREN]
    case COptional(o, f) => Flatten(o) + [OPTIONAL, Id(f)]
    case CIndex(o, i) => Flatten(o) + [LBRACKET] + Flatten(i) + [RBRACKET]
    case CCall(o, args) => Flatten(o) + [LPAREN] + FlattenList(args) + [RPAREN]
    case CNot(o) => [NOT] + Flatten(o)
    case CBinary(t, l, r) => Flatten(l) + [t] + Flatten(r)
    case CTernary(x, t, e) => Flatten(x) + [QUESTION] + Flatten(t) + [COLON] + Flatten(e)
    case CPipe(v, f, args) => Flatten(v) + [PIPE, Id(f), LPAREN] + FlattenList(args) + [RPAREN]
    case CPipeBare(v, f) => Flatten(v) + [PIPE, Id(f)]
  }

  function FlattenList(cs: seq<Cst>): seq<Token>
    decreases cs, 1
  {
    if cs == [] then []
    else if |cs| == 1 then Flatten(cs[0])
    else Flatten(cs[0]) + [COMMA] + FlattenList(cs[1..])
  }

  function FlattenFields(ks: seq<Token>, vs: seq<Cst>): seq<Token>
    decreases vs, 1
  {
    if ks == [] || vs == [] then []
    else if |ks| == 1 || |vs| == 1 then [ks[0], COLON] + Flatten(vs[0])
    else [ks[0], COLON] + Flatten(vs[0]) + [COMMA] + FlattenFields(ks[1..], vs[1..])
  }

  // ---------- Levels ----------

  /** The precedence level at whose loop a token continues an expression; 12 for tokens that continue nothing. */
  function Level(k: Kind): nat {
    match k
    case Pipe => 0
    case Question => 1
    case NullCoalesce => 2
    case Or => 3
    case And => 4
    case Eq => 5
    case Neq => 5
    case Gt => 6
    case Gte => 6
    case Lt => 6
    case Lte => 6
    case Plus => 7
    case Minus => 7
    case Star => 8
    case Slash => 8
    case Percent => 8
    case Dot => 10
    case OptionalChain => 10
    case LBracket => 10
    case LParen => 10
    case _ => 12
  }

  predicate IsBinary(k: Kind) {
    2 <= Level(k) <= 8
  }

  function Peek(ts: seq<Token>): Kind {
    if ts == [] then EOF else ts[0].kind
  }

  // ---------- The parser as a function of the remaining tokens ----------

  type Parsed = Option<(Cst, seq<Token>)>

  /** Levels: 0 pipe, 1 ternary, 2-8 binary operators, 9 unary, 10 postfix, 11 primary. */
  function Parse(level: nat, ts: seq<Token>): (r: Parsed)
    requires level <= 11
    ensures r.Some? ==> |r.value.1| < |ts|
    decreases |ts|, 12 - level
  {
    if level == 11 then ParsePrimary(ts)
    else if level == 9 && Peek(ts) == Not then
      match Parse(9, ts[1..])
      case None => None
      case Some((c, rest)) => Some((CNot(c), rest))
    else
      match Parse(level + 1, ts)
      case None => None
      case Some((c, rest)) =>
        if level == 9 then Some((c, rest))
        else if level == 1 then ParseTernaryTail(c, rest)
        else Loop(level, c, rest)
  }

  function ParseTernaryTail(c: Cst, ts: seq<Token>): (r: Parsed)
    ensures r.Some? ==> |r.value.1| <= |ts|
    decreases |ts|, 20
  {
    if Peek(ts) != Question then Some((c, ts))
    else match Parse(0, ts[1..])
      case None => None
      case Some((thn, r1)) =>
        if Peek(r1) != Colon then None
        else match Parse(0, r1[1..])
          case None => None
          case Some((els, r2)) => Some((CTernary(c, thn, els), r2))
  }

  /** The loop of a left-associative level, with what it has built so far. */
  function Loop(level: nat, acc: Cst, ts: seq<Token>): (r: Parsed)
    requires level == 0 || 2 <= level <= 8 || level == 10
    ensures r.Some? ==> |r.value.1| <= |ts|
    decreases |ts|, 20
  {
    if Level(Peek(ts)) != level then Some((acc, ts))
    else
      match Extend(level, acc, ts)
      case None => None
      case Some((c, rest)) => Loop(level, c, rest)
  }

  /** One turn of the loop: consume an operator with its operand or arguments. */
  function Extend(level: nat, acc: Cst, ts: seq<Token>): (r: Parsed)
    requires (level == 0 || 2 <= level <= 8 || level == 10) && Level(Peek(ts)) == level
    ensures r.Some? ==> |r.value.1| < |ts|
    decreases |ts|, 19
  {
    if 2 <= level <= 8 then
      match Parse(level + 1, ts[1..])
      case None => None
      case Some((right, rest)) => Some((CBinary(ts[0], acc, right), rest))
    else if level == 0 then
      if Peek(ts[1..]) != Ident then None
      else if Peek(ts[2..]) != LParen then Some((CPipeBare(acc, ts[1].value), ts[2..]))
      else match ParseArgs(ts[3..])
        case None => None
        case Some((args, rest)) => Some((CPipe(acc, ts[1].value, args), rest))
    else
      if ts[0].kind == Dot then
        if Peek(ts[1..]) != Ident then None
        else if Peek(ts[2..]) != LParen then Some((CDot(acc, ts[1].value), ts[2..]))
        else match ParseArgs(ts[3..])
          case None => None
          case Some((args, rest)) => Some((CMethod(acc, ts[1].value, args), rest))
      else if ts[0].kind == OptionalChain then
        if Peek(ts[1..]) != Ident then None else Some((COptional(acc, ts[1].value), ts[2..]))
      else if ts[0].kind == LBracket then
        match Parse(0, ts[1..])
        case None => None
        case Some((index, rest)) => if Peek(rest) != RBracket then None else Some((CIndex(acc, index), rest[1..]))
      else
        match ParseArgs(ts[1..])
        case None => None
        case Some((args, rest)) => Some((CCall(acc, args), rest))
  }

  /** Arguments after an opening parenthesis, with the closing one. */
  function ParseArgs(ts: seq<Token>): (r: Option<(seq<Cst>, seq<Token>)>)
    ensures r.Some? ==> |r.value.1| < |ts|
    decreases |ts|, 18
  {
    if Peek(ts) == RParen then Some(([], ts[1..]))
    else match ParseList(ts)
      case None => None
      case Some((cs, rest)) => if Peek(rest) != RParen then None else Some((cs, rest[1..]))
  }

  /** One or more expressions separated by commas. */
  function ParseList(ts: seq<Token>): (r: Option<(seq<Cst>, seq<Token>)>)
    ensures r.Some? ==> |r.value.1| < |ts| && r.value.0 != []
    decreases |ts|, 17
  {
    match Parse(0, ts)
    case None => None
    case Some((c, rest)) =>
      if Peek(rest) != Comma then Some(([c], rest))
      else match ParseList(rest[1..])
        case None => None
        case Some((cs, rest')) => Some(([c] + cs, rest'))
  }

  /** One or more `key: value` pairs separated by commas. */
  function ParseFields(ts: seq<Token>): (r: Option<(seq<Token>, seq<Cst>, seq<Token>)>)
    ensures r.Some? ==> |r.value.2| < |ts| && |r.value.0| == |r.value.1| > 0
    decreases |ts|, 17
  {
    if Peek(ts) != Ident && Peek(ts) != Str then None
    else if Peek(ts[1..]) != Colon then None
    else match Parse(0, ts[2..])
      case None => None
      case Some((c, rest)) =>
        if Peek(rest) != Comma then Some(([ts[0]], [c], rest))
        else match ParseFields(rest[1..])
          case None => None
          case Some((ks, vs, rest')) => Some(([ts[0]] + ks, [c] + vs, rest'))
  }

  function ParsePrimary(ts: seq<Token>): (r: Parsed)
    ensures r.Some? ==> |r.value.1| < |ts|
    decreases |ts|, 0
  {
    match Peek(ts)
    case Ident =>
      if Peek(ts[1..]) != Arrow then Some((CToken(ts[0]), ts[1..]))
      else (match Parse(0, ts[2..])
        case None => None
        case Some((body, rest)) => Some((CLambda(ts[0].value, body), rest)))
    case LParen =>
      (match Parse(0, ts[1..])
       case None => None
       case Some((c, rest)) => if Peek(rest) != RParen then None else Some((CParen(c), rest[1..])))
    case LBracket =>
      if Peek(ts[1..]) == RBracket then Some((CArray([]), ts[2..]))
      else (match ParseList(ts[1..])
        case None => None
        case Some((cs, rest)) => if Peek(rest) != RBracket then None else Some((CArray(cs), rest[1..])))
    case LBrace =>
      if Peek(ts[1..]) == RBrace then Some((CObject([], []), ts[2..]))
      else (match ParseFields(ts[1..])
        case None => None
        case Some((ks, vs, rest)) => if Peek(rest) != RBrace then None else Some((CObject(ks, vs), rest[1..])))
    case k =>
      if IsLiteral(k) && LiteralOf(ts[0]).Some? then Some((CToken(ts[0]), ts[1..])) else None
  }

  /** A whole expression: nothing but EOF may follow. */
  function ParseTokens(ts: seq<Token>): Option<Cst> {
    match Parse(0, ts)
    case None => None
    case Some((c, rest)) => if Peek(rest) == EOF then Some(c) else None
  }
}
