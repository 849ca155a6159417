/**
 * Printing expressions with parentheses only where they are needed. The printed tree is well formed in its context, whatever
 * the level of the operand and the token that follows, and it denotes the expression.
 */
module Printing {
  import opened Options
  import opened Tokens
  import opened Spelling
  import opened Syntax
  import opened Grammar
  import opened Recognition

  // ---------- Integers as text ----------

  function Decimal(n: nat): (s: string) {
    if n < 10 then [('0' as int + n) as char] else Decimal(n / 10) + [('0' as int + n % 10) as char]
  }

  function IntegerText(n: int): string {
    if n < 0 then "-" + Decimal(-n) else Decimal(n)
  }

  lemma {:induction false} DecimalBack(n: nat)
    ensures Digits(Decimal(n)) && Magnitude(Decimal(n)) == n
  {
    var s := Decimal(n);
    if n < 10 {
      assert s[..0] == "" && Magnitude(s[..0]) == 0;
    } else {
      DecimalBack(n / 10);
      assert s[..|s| - 1] == Decimal(n / 10);
    }
  }

  lemma IntegerTextBack(n: int)
    requires -0x8000_0000_0000_0000 <= n < 0x8000_0000_0000_0000
    ensures IntText(IntegerText(n)) && ParseInt64(IntegerText(n)) == Some(n)
  {
    DecimalBack(if n < 0 then -n else n);
    if n < 0 {
      assert IntegerText(n)[1..] == Decimal(-n);
    } else {
      assert IsDigit(Decimal(n)[0]);
    }
  }

  // ---------- What can be printed ----------

  function OperatorKind(op: string): Option<Kind> {
    if |op| == 2 then TwoCharOp(op[0], op[1]) else if |op| == 1 then OneCharOp(op[0]) else None
  }

  predicate KnownOperator(op: string) {
    OperatorKind(op).Some? && 3 <= Level(OperatorKind(op).value) <= 8
  }

  ghost predicate PrintableLiteral(l: Literal) {
    match l
    case LInt(n) => -0x8000_0000_0000_0000 <= n < 0x8000_0000_0000_0000
    case LFloat(text) => FloatText(text) && FloatInRange(text)
    case _ => true
  }

  ghost predicate IsName(name: string) {
    WellSpelled(Id(name))
  }

  ghost predicate Printable(e: Expr)
    decreases e, 0
  {
    match e
    case Lit(l) => PrintableLiteral(l)
    case Name(n) => IsName(n)
    case DotExpr(o, f) => Printable(o) && IsName(f)
    case OptionalChainExpr(o, f) => Printable(o) && IsName(f)
    case IndexExpr(o, i) => Printable(o) && Printable(i)
    case CallExpr(o, args) => Printable(o) && AllPrintable(args)
    case PipeExpr(v, f, args) => Printable(v) && IsName(f) && AllPrintable(args)
    case UnaryExpr(o) => Printable(o)
    case BinaryExpr(op, l, r) => KnownOperator(op) && Printable(l) && Printable(r)
    case NullCoalesceExpr(l, r) => Printable(l) && Printable(r)
    case TernaryExpr(x, t, f) => Printable(x) && Printable(t) && Printable(f)
    case LambdaExpr(p, body) => IsName(p) && Printable(body)
    case ArrayExpr(es) => AllPrintable(es)
    case ObjectExpr(ks, vs) => |ks| == |vs| && AllPrintable(vs)
  }

  ghost predicate AllPrintable(es: seq<Expr>)
    decreases es, 1
  {
    es == [] || (Printable(es[0]) && AllPrintable(es[1..]))
  }

  // ---------- The printed tree ----------

  /** Tokens that end an expression at every level. */
  predicate Closes(f: Kind) {
    f in {EOF, RParen, RBracket, RBrace, Comma, Colon}
  }

  /** An operand of level k can stand before f. */
  predicate Before(k: nat, f: Kind) {
    Closes(f) || Level(f) < k || (Level(f) == k && k != 1)
  }

  /**
   * Whether f ends what a lambda's body or a ternary's last branch may reach to. A token that continues nothing always does;
   * any other only behind a pipe, which takes a name and its arguments and no more.
   */
  predicate Ends(e: Expr, f: Kind) {
    Level(f) > 10 || (Level(f) != 0 && (e.PipeExpr? || (e.TernaryExpr? && Ends(e.els, f))))
  }

  /** e needs no parentheses where an operand of level k is expected and f comes next. */
  predicate Bare(e: Expr, k: nat, f: Kind) {
    match e
    case UnaryExpr(_) => k <= 9
    case BinaryExpr(op, _, _) => OperatorKind(op).Some? && k <= Level(OperatorKind(op).value)
    case NullCoalesceExpr(_, _) => k <= 2
    case TernaryExpr(_, _, y) => k <= 1 && Ends(y, f)
    case LambdaExpr(_, body) => Ends(body, f)
    case DotExpr(_, _) => f != LParen
    case _ => true
  }

  function LiteralToken(l: Literal): Token {
    match l
    case LString(s) => Token(Str, s)
    case LInt(n) => Token(Int, IntegerText(n))
    case LFloat(text) => Token(Float, text)
    case LBool(b) => Token(Bool, if b then "true" else "false")
    case LNull => Token(NullLit, "null")
  }

  function Write(e: Expr, k: nat, f: Kind): Cst
    decreases e, 1
  {
    if Bare(e, k, f) then WriteBare(e, k, f) else CParen(WriteBare(e, 0, RParen))
  }

  function WriteBare(e: Expr, k: nat, f: Kind): Cst
    decreases e, 0
  {
    match e
    case Lit(l) => CToken(LiteralToken(l))
    case Name(n) => CToken(Id(n))
    case DotExpr(o, name) => CDot(Write(o, 10, Dot), name)
    case OptionalChainExpr(o, name) => COptional(Write(o, 10, OptionalChain), name)
    case IndexExpr(o, i) => CIndex(Write(o, 10, LBracket), Write(i, 0, RBracket))
    case CallExpr(o, args) => CCall(Write(o, 10, LParen), WriteAll(args, RParen))
    case PipeExpr(v, name, args) =>
      if k > 0 then CMethod(Write(v, 10, Dot), name, WriteAll(args, RParen))
      else if args == [] && f != LParen then CPipeBare(Write(v, 0, Pipe), name)
      else CPipe(Write(v, 0, Pipe), name, WriteAll(args, RParen))
    case UnaryExpr(o) => CNot(Write(o, 9, f))
    case BinaryExpr(op, l, r) =>
      if OperatorKind(op).None? then CNot(Write(l, 9, f))
      else
        var kind := OperatorKind(op).value;
        CBinary(Token(kind, op), Write(l, Level(kind), kind), Write(r, Level(kind) + 1, f))
    case NullCoalesceExpr(l, r) => CBinary(Token(NullCoalesce, "??"), Write(l, 2, NullCoalesce), Write(r, 3, f))
    case TernaryExpr(x, t, y) => CTernary(Write(x, 2, Question), Write(t, 0, Colon), Write(y, 0, f))
    case LambdaExpr(p, body) => CLambda(p, Write(body, 0, f))
    case ArrayExpr(es) => CArray(WriteAll(es, RBracket))
    case ObjectExpr(ks, vs) => CObject(WriteKeys(ks), WriteAll(vs, RBrace))
  }

  function WriteAll(es: seq<Expr>, closer: Kind): (cs: seq<Cst>)
    ensures |cs| == |es|
    decreases es, 2
  {
    if es == [] then [] else [Write(es[0], 0, if |es| == 1 then closer else Comma)] + WriteAll(es[1..], closer)
  }

  function WriteKeys(keys: seq<string>): (ks: seq<Token>)
    ensures |ks| == |keys| && KeyNames(ks) == keys && forall t :: t in ks ==> t.kind == Str
  {
    if keys == [] then [] else [Token(Str, keys[0])] + WriteKeys(keys[1..])
  }

  /** A tree of a level fits every lower level, when the next token belongs to neither. */
  lemma {:induction false} Climb(c: Cst, own: nat, k: nat, f: Kind)
    requires k <= own <= 11 && Fits(c, own, f) && Before(k, f) && (own > k ==> Level(f) != own) && (k == own == 1 ==> f != Question)
    ensures Fits(c, k, f) && (Level(f) != k ==> Full(c, k, f))
    decreases own - k
  {
    hide Fits;
    if k < own {
      FitsBelow(c, own - 1, f);
      Climb(c, own - 1, k, f);
    }
  }

  // ---------- The printed tree is well formed and means the expression ----------

  /** Every token in the tree is one the lexer can produce. */
  ghost predicate Spelled(c: Cst)
    decreases c, 0
  {
    match c
    case CToken(t) => WellSpelled(t)
    case CParen(inner) => Spelled(inner)
    case CLambda(p, body) => IsName(p) && Spelled(body)
    case CArray(es) => AllSpelled(es)
    case CObject(ks, vs) =>
      |ks| == |vs| && (forall t :: t in ks ==> (t.kind == Str || t.kind == Ident) && WellSpelled(t)) && AllSpelled(vs)
    case CDot(o, f) => Spelled(o) && IsName(f)
    case CMethod(o, f, args) => Spelled(o) && IsName(f) && AllSpelled(args)
    case COptional(o, f) => Spelled(o) && IsName(f)
    case CIndex(o, i) => Spelled(o) && Spelled(i)
    case CCall(o, args) => Spelled(o) && AllSpelled(args)
    case CNot(o) => Spelled(o)
    case CBinary(t, l, r) => IsBinary(t.kind) && WellSpelled(t) && Spelled(l) && Spelled(r)
    case CTernary(x, t, e) => Spelled(x) && Spelled(t) && Spelled(e)
    case CPipe(v, f, args) => Spelled(v) && IsName(f) && AllSpelled(args)
    case CPipeBare(v, f) => Spelled(v) && IsName(f)
  }

  ghost predicate AllSpelled(cs: seq<Cst>)
    decreases cs, 1
  {
    cs == [] || (Spelled(cs[0]) && AllSpelled(cs[1..]))
  }

  ghost predicate Faithful(c: Cst, e: Expr, k: nat, f: Kind)
    requires k <= 11
  {
    Fits(c, k, f) && (Level(f) != k ==> Full(c, k, f)) && Abstract(c) == e && Spelled(c)
  }

  /** What may follow an operand, or the last part of a lambda or a ternary. */
  predicate Allowed(e: Expr, k: nat, f: Kind) {
    Before(k, f) || (k == 0 && Level(f) <= 10 && Ends(e, f))
  }

  lemma {:induction false} WriteFaithful(e: Expr, k: nat, f: Kind)
    requires Printable(e) && k <= 10 && Allowed(e, k, f)
    ensures Faithful(Write(e, k, f), e, k, f)
    decreases e, 2
  {
    hide Printable, Spelled, Abstract, Fits, Full;
    if Bare(e, k, f) {
      WriteBareFaithful(e, k, f);
    } else {
      BareAtEnd(e, k, f);
      BareInside(e);
      WriteBareFaithful(e, 0, RParen);
      ParenFaithful(WriteBare(e, 0, RParen), e, k, f);
    }
  }

  lemma BareAtEnd(e: Expr, k: nat, f: Kind)
    requires Allowed(e, k, f) && !Bare(e, k, f)
    ensures Before(k, f)
  {
  }

  lemma BareInside(e: Expr)
    requires Printable(e)
    ensures Bare(e, 0, RParen)
  {
  }

  lemma ParenFaithful(c: Cst, e: Expr, k: nat, f: Kind)
    requires Faithful(c, e, 0, RParen) && k <= 10 && Before(k, f)
    ensures Faithful(CParen(c), e, k, f)
  {
    PrimaryFits(CParen(c), k, f);
  }

  lemma {:induction false} WriteBareFaithful(e: Expr, k: nat, f: Kind)
    requires Printable(e) && k <= 10 && Allowed(e, k, f) && Bare(e, k, f)
    ensures Faithful(WriteBare(e, k, f), e, k, f)
    decreases e, 1
  {
    hide Printable, Spelled, Abstract, Fits, Full, WriteBare, Level;
    AllowedOnlyThere(e, k, f);
    match e
    case DotExpr(_, _) => PostfixFaithful(e, k, f);
    case OptionalChainExpr(_, _) => PostfixFaithful(e, k, f);
    case IndexExpr(_, _) => PostfixFaithful(e, k, f);
    case CallExpr(_, _) => PostfixFaithful(e, k, f);
    case PipeExpr(_, _, _) =>
      if k > 0 {
        MethodFaithful(e, k, f);
      } else {
        PipeFaithful(e, f);
      }
    case UnaryExpr(_) => NotFaithful(e, k, f);
    case BinaryExpr(_, _, _) => BinaryFaithful(e, k, f);
    case NullCoalesceExpr(_, _) => CoalesceFaithful(e, k, f);
    case TernaryExpr(_, _, _) => TernaryFaithful(e, k, f);
    case LambdaExpr(_, _) => LambdaFaithful(e, k, f);
    case ArrayExpr(_) => ArrayFaithful(e, k, f);
    case ObjectExpr(_, _) => ObjectFaithful(e, k, f);
    case Lit(_) => PrimaryFaithful(e, k, f);
    case Name(_) => PrimaryFaithful(e, k, f);
  }

  lemma AllowedOnlyThere(e: Expr, k: nat, f: Kind)
    requires Allowed(e, k, f)
    ensures Before(k, f) || (k == 0 && (e.PipeExpr? || e.TernaryExpr?))
  {
  }

  lemma {:induction false} PostfixFaithful(e: Expr, k: nat, f: Kind)
    requires Printable(e) && k <= 10 && Before(k, f) && Bare(e, k, f)
    requires e.DotExpr? || e.OptionalChainExpr? || e.IndexExpr? || e.CallExpr?
    ensures Faithful(WriteBare(e, k, f), e, k, f)
    decreases e, 0
  {
    hide Fits, Full, Write;
    var c := WriteBare(e, k, f);
    match e {
      case DotExpr(o, name) =>
        WriteFaithful(o, 10, Dot);
      case OptionalChainExpr(o, name) =>
        WriteFaithful(o, 10, OptionalChain);
      case IndexExpr(o, i) =>
        WriteFaithful(o, 10, LBracket);
        WriteFaithful(i, 0, RBracket);
      case CallExpr(o, args) =>
        WriteFaithful(o, 10, LParen);
        WriteAllFaithful(args, RParen);
    }
    PostfixFits(c, k, f);
  }

  lemma PostfixFits(c: Cst, k: nat, f: Kind)
    requires k <= 10 && Before(k, f)
    requires match c
             case CDot(o, _) => Fits(o, 10, Dot) && f != LParen
             case COptional(o, _) => Fits(o, 10, OptionalChain)
             case CIndex(o, i) => Fits(o, 10, LBracket) && Full(i, 0, RBracket)
             case CCall(o, args) => Fits(o, 10, LParen) && FitsList(args, RParen)
             case CMethod(o, _, args) => Fits(o, 10, Dot) && FitsList(args, RParen)
             case _ => false
    ensures Fits(c, k, f) && (Level(f) != k ==> Full(c, k, f))
  {
    hide FitsList, FitsPrimary;
    Climb(c, 10, k, f);
  }

  lemma {:induction false} MethodFaithful(e: Expr, k: nat, f: Kind)
    requires Printable(e) && e.PipeExpr? && 0 < k <= 10 && Before(k, f)
    ensures Faithful(WriteBare(e, k, f), e, k, f)
    decreases e, 0
  {
    hide Fits, Full, Write, WellSpelled, WriteAll, FitsList, Level;
    WriteAllFaithful(e.args, RParen);
    DotLevel();
    WriteFaithful(e.value, 10, Dot);
    PostfixFits(WriteBare(e, k, f), k, f);
  }

  lemma DotLevel()
    ensures Level(Dot) == 10 && Level(Pipe) == 0 && Level(LParen) == 10
  {
  }

  lemma {:induction false} PipeFaithful(e: Expr, f: Kind)
    requires Printable(e) && e.PipeExpr? && Allowed(e, 0, f)
    ensures Faithful(WriteBare(e, 0, f), e, 0, f)
    decreases e, 0
  {
    hide Fits, Full, Write, WellSpelled, WriteAll, FitsList, Level;
    DotLevel();
    WriteAllFaithful(e.args, RParen);
    WriteFaithful(e.value, 0, Pipe);
    PipeFits(WriteBare(e, 0, f), f);
  }

  lemma PipeFits(c: Cst, f: Kind)
    requires c.CPipe? || c.CPipeBare?
    requires Fits(c.value, 0, Pipe) && (if c.CPipe? then FitsList(c.args, RParen) else f != LParen)
    ensures Fits(c, 0, f) && (Level(f) != 0 ==> Full(c, 0, f))
  {
  }

  lemma {:induction false} NotFaithful(e: Expr, k: nat, f: Kind)
    requires Printable(e) && e.UnaryExpr? && k <= 9 && Before(k, f)
    ensures Faithful(WriteBare(e, k, f), e, k, f)
    decreases e, 0
  {
    hide Fits, Full, Write;
    WriteFaithful(e.operand, 9, f);
    NotFits(WriteBare(e, k, f), k, f);
  }

  lemma {:induction false} CoalesceFaithful(e: Expr, k: nat, f: Kind)
    requires Printable(e) && e.NullCoalesceExpr? && k <= 2 && Before(k, f)
    ensures Faithful(WriteBare(e, k, f), e, k, f)
    decreases e, 0
  {
    hide Fits, Full, Write, WellSpelled, Level;
    CoalesceSpelled();
    BeforeHigher(k, 3, f);
    WriteFaithful(e.left, 2, NullCoalesce);
    WriteFaithful(e.right, 3, f);
    BinaryFits(WriteBare(e, k, f), k, f);
  }

  lemma {:induction false} TernaryFaithful(e: Expr, k: nat, f: Kind)
    requires Printable(e) && e.TernaryExpr? && k <= 1 && Allowed(e, k, f) && Ends(e.els, f)
    ensures Faithful(WriteBare(e, k, f), e, k, f)
    decreases e, 0
  {
    hide Fits, Full, Write, Allowed, Ends, Before, Level, Closes;
    TernaryEnds(e, k, f);
    WriteFaithful(e.condition, 2, Question);
    WriteFaithful(e.thn, 0, Colon);
    WriteFaithful(e.els, 0, f);
    TernaryFits(WriteBare(e, k, f), k, f);
  }

  lemma TernaryEnds(e: Expr, k: nat, f: Kind)
    requires e.TernaryExpr? && k <= 1 && Allowed(e, k, f) && Ends(e.els, f)
    ensures Allowed(e.condition, 2, Question) && Allowed(e.thn, 0, Colon) && Allowed(e.els, 0, f)
    ensures Level(f) != 0 && Level(Question) == 1 && Level(Colon) > 10
  {
  }

  lemma {:induction false} BinaryFaithful(e: Expr, k: nat, f: Kind)
    requires Printable(e) && e.BinaryExpr? && k <= 10 && Before(k, f) && Bare(e, k, f)
    ensures Faithful(WriteBare(e, k, f), e, k, f)
    decreases e, 0
  {
    hide Fits, Full, Write, OperatorKind, WellSpelled, Level, Operator, Before, Bare, Ends;
    var kind := OperatorKind(e.op).value;
    OperatorText(e.op);
    OperandsAllowed(e, k, f);
    WriteFaithful(e.left, Level(kind), kind);
    WriteFaithful(e.right, Level(kind) + 1, f);
    BinaryFits(WriteBare(e, k, f), k, f);
  }

  /** The operator may follow its left operand, and what follows it may follow its right one. */
  lemma OperandsAllowed(e: Expr, k: nat, f: Kind)
    requires Printable(e) && e.BinaryExpr? && k <= 10 && Before(k, f) && Bare(e, k, f)
    ensures var level := Level(OperatorKind(e.op).value);
            && k <= level <= 8 && Before(level, OperatorKind(e.op).value)
            && Before(level + 1, f) && Level(f) != level + 1
  {
    hide OperatorKind;
    BeforeHigher(k, Level(OperatorKind(e.op).value) + 1, f);
  }

  lemma BeforeHigher(k: nat, above: nat, f: Kind)
    requires k < above <= 9 && Before(k, f)
    ensures Before(above, f) && Level(f) != above
  {
  }

  lemma OperatorText(op: string)
    requires KnownOperator(op)
    ensures WellSpelled(Token(OperatorKind(op).value, op)) && Operator(Token(OperatorKind(op).value, op)) == op
    ensures IsBinary(OperatorKind(op).value) && OperatorKind(op).value != NullCoalesce
  {
    if |op| == 2 {
      assert op == [op[0], op[1]];
    }
  }

  lemma CoalesceSpelled()
    ensures WellSpelled(Token(NullCoalesce, "??")) && Level(NullCoalesce) == 2
  {
  }

  lemma NotFits(c: Cst, k: nat, f: Kind)
    requires c.CNot? && k <= 9 && Before(k, f) && Full(c.operand, 9, f)
    ensures Fits(c, k, f) && (Level(f) != k ==> Full(c, k, f))
  {
    Climb(c, 9, k, f);
  }

  lemma BinaryFits(c: Cst, k: nat, f: Kind)
    requires c.CBinary? && IsBinary(c.tok.kind) && k <= Level(c.tok.kind) && Before(k, f)
    requires Fits(c.left, Level(c.tok.kind), c.tok.kind) && Full(c.right, Level(c.tok.kind) + 1, f)
    ensures Fits(c, k, f) && (Level(f) != k ==> Full(c, k, f))
  {
    Climb(c, Level(c.tok.kind), k, f);
  }

  lemma TernaryFits(c: Cst, k: nat, f: Kind)
    requires c.CTernary? && k <= 1 && Level(f) != 0
    requires Full(c.condition, 2, Question) && Full(c.thn, 0, Colon) && Full(c.els, 0, f)
    ensures Fits(c, k, f) && (Level(f) != k ==> Full(c, k, f))
  {
    assert Fits(c, 1, f);
  }

  lemma {:induction false} PrimaryFaithful(e: Expr, k: nat, f: Kind)
    requires Printable(e) && k <= 10 && Before(k, f) && (e.Lit? || e.Name?)
    ensures Faithful(WriteBare(e, k, f), e, k, f)
    decreases e, 0
  {
    hide Fits, Full;
    if e.Lit? {
      LiteralBack(e.lit);
    }
    PrimaryFits(WriteBare(e, k, f), k, f);
  }

  lemma {:induction false} LambdaFaithful(e: Expr, k: nat, f: Kind)
    requires Printable(e) && e.LambdaExpr? && k <= 10 && Before(k, f) && Ends(e.body, f)
    ensures Faithful(WriteBare(e, k, f), e, k, f)
    decreases e, 0
  {
    hide Fits, Full, Write, WellSpelled;
    BodyEnds(e, k, f);
    WriteFaithful(e.body, 0, f);
    PrimaryFits(WriteBare(e, k, f), k, f);
  }

  lemma BodyEnds(e: Expr, k: nat, f: Kind)
    requires e.LambdaExpr? && Before(k, f) && Ends(e.body, f) && k <= 10
    ensures Allowed(e.body, 0, f) && Level(f) != 0
  {
  }

  lemma {:induction false} ArrayFaithful(e: Expr, k: nat, f: Kind)
    requires Printable(e) && e.ArrayExpr? && k <= 10 && Before(k, f)
    ensures Faithful(WriteBare(e, k, f), e, k, f)
    decreases e, 0
  {
    hide Fits, Full, WriteAll, FitsList, Level;
    WriteAllFaithful(e.elements, RBracket);
    PrimaryFits(WriteBare(e, k, f), k, f);
  }

  lemma {:induction false} ObjectFaithful(e: Expr, k: nat, f: Kind)
    requires Printable(e) && e.ObjectExpr? && k <= 10 && Before(k, f)
    ensures Faithful(WriteBare(e, k, f), e, k, f)
    decreases e, 0
  {
    hide Fits, Full, WriteAll, FitsFields, FitsList, Level, WriteKeys, WellSpelled, Before;
    StringsSpelled(WriteKeys(e.keys));
    WriteAllFaithful(e.values, RBrace);
    FieldsFit(WriteKeys(e.keys), WriteAll(e.values, RBrace));
    PrimaryFits(WriteBare(e, k, f), k, f);
  }

  lemma StringsSpelled(ks: seq<Token>)
    requires forall t :: t in ks ==> t.kind == Str
    ensures forall t :: t in ks ==> WellSpelled(t)
  {
  }

  lemma NoneAt(level: nat, f: Kind)
    requires level == 9 || level == 11
    ensures Level(f) != level
  {
  }

  lemma PrimaryFits(c: Cst, k: nat, f: Kind)
    requires FitsPrimary(c, f) && k <= 10 && Before(k, f)
    ensures Fits(c, k, f) && (Level(f) != k ==> Full(c, k, f))
  {
    hide FitsPrimary, Full, Level;
    NoneAt(11, f);
    Climb(c, 11, k, f);
  }

  lemma {:induction false} FieldsFit(ks: seq<Token>, cs: seq<Cst>)
    requires |ks| == |cs| && (forall t :: t in ks ==> t.kind == Str) && FitsList(cs, RBrace)
    ensures FitsFields(ks, cs)
  {
    if ks != [] {
      FieldsFit(ks[1..], cs[1..]);
    }
  }

  lemma LiteralBack(l: Literal)
    requires PrintableLiteral(l)
    ensures WellSpelled(LiteralToken(l)) && LiteralToken(l).kind != Ident && LiteralOf(LiteralToken(l)) == Some(l)
  {
    if l.LInt? {
      IntegerTextBack(l.n);
    }
  }

  lemma CommaCloses(closer: Kind)
    requires Closes(closer)
    ensures Closes(Comma) && Level(Comma) != 0 && Level(closer) != 0
  {
  }

  lemma {:induction false} WriteAllFaithful(es: seq<Expr>, closer: Kind)
    requires AllPrintable(es) && Closes(closer)
    ensures FitsList(WriteAll(es, closer), closer) && AbstractAll(WriteAll(es, closer)) == es && AllSpelled(WriteAll(es, closer))
    decreases es, 3
  {
    hide Fits, Full, Write, Level, WellSpelled;
    CommaCloses(closer);
    if es != [] {
      WriteFaithful(es[0], 0, if |es| == 1 then closer else Comma);
      WriteAllFaithful(es[1..], closer);
      assert WriteAll(es, closer)[1..] == WriteAll(es[1..], closer);
    }
  }
}
