/**
 * What comes out of the lexer and the parser: tokens are well spelled, and a well-formed tree of such tokens denotes an
 * expression that can be printed. Together with the printed tree's round trip this closes the circle.
 */
module Produced {
  import opened Options
  import opened Tokens
  import opened Spelling
  import opened Syntax
  import opened Grammar
  import opened Recognition
  import opened Printing

  // ---------- What is read can be printed ----------

  lemma {:induction false} DigitRunDigits(s: string)
    ensures AllDigits(s[..DigitRun(s)])
  {
    if s != "" && IsDigit(s[0]) {
      DigitRunDigits(s[1..]);
      assert s[..DigitRun(s)] == [s[0]] + s[1..][..DigitRun(s[1..])];
    }
  }

  lemma {:induction false} IdentRunIdent(s: string)
    ensures forall c :: c in s[..IdentRun(s)] ==> IsIdentChar(c)
  {
    if s != "" && IsIdentChar(s[0]) {
      IdentRunIdent(s[1..]);
      assert s[..IdentRun(s)] == [s[0]] + s[1..][..IdentRun(s[1..])];
    }
  }

  lemma WholePartText(s: string)
    requires s != "" && (IsDigit(s[0]) || (s[0] == '-' && |s| > 1 && IsDigit(s[1])))
    ensures IntText(s[..WholePart(s)])
  {
    if s[0] == '-' {
      DigitRunDigits(s[1..]);
      assert s[..WholePart(s)][1..] == s[1..][..DigitRun(s[1..])];
    } else {
      DigitRunDigits(s);
      assert s[..WholePart(s)][0] == s[0];
    }
  }

  lemma NumberWell(s: string)
    requires s != "" && (IsDigit(s[0]) || (s[0] == '-' && |s| > 1 && IsDigit(s[1])))
    ensures WellSpelled(Number(s).0)
  {
    WholePartText(s);
    if HasFraction(s) {
      var n, end := WholePart(s), Number(s).1;
      DigitRunDigits(s[n + 1..]);
      assert s[..end][..n] == s[..n] && s[..end][n + 1..] == s[n + 1..][..DigitRun(s[n + 1..])];
      FractionText(s[..end], n);
    }
  }

  lemma FractionText(t: string, n: nat)
    requires n + 1 < |t| && IntText(t[..n]) && t[n] == '.' && AllDigits(t[n + 1..])
    ensures FloatText(t)
  {
    var u, w := Spelling.Unsigned(t), Spelling.Unsigned(t[..n]);
    assert t[..n][0] == t[0];
    assert u[..|w|] == w && u[|w| + 1..] == t[n + 1..];
    assert PointAt(u, |w|);
  }

  lemma {:induction false} NextTokenWell(s: string, operand: bool)
    requires s != "" && NextToken(s, operand).Some?
    ensures WellSpelled(NextToken(s, operand).value.0)
  {
    hide StringBody, Number;
    var c := s[0];
    if IsDigit(c) || (c == '-' && |s| > 1 && IsDigit(s[1])) {
      NumberWell(s);
    }
    if IsIdentStart(c) {
      IdentRunIdent(s);
    }
  }

  ghost predicate Lexed(ts: seq<Token>) {
    forall t :: t in ts ==> WellSpelled(t) || t.kind == EOF
  }

  lemma {:induction false} LexedWell(s: string, operand: bool)
    requires LexFrom(s, operand).Some?
    ensures var ts := LexFrom(s, operand).value; Lexed(ts)
    decreases |s|
  {
    hide WellSpelled, NextToken;
    if s != "" {
      if IsSpace(s[0]) {
        LexedWell(s[1..], operand);
      } else {
        var (t, n) := NextToken(s, operand).value;
        NextTokenWell(s, operand);
        LexedWell(s[n..], OperandExpected(t.kind));
      }
    }
  }

  /** The tree that a text is parsed to, at the level of its root. */
  lemma {:induction false} FitsOwn(c: Cst, level: nat, next: Kind)
    requires level <= 11 && Fits(c, level, next)
    ensures OwnLevel(c) <= 11 && Fits(c, OwnLevel(c), next)
    decreases 12 - level
  {
    hide Fits;
    if OwnLevel(c) != level {
      FitsInner(c, level, next);
      FullFits(c, level + 1, next);
      FitsOwn(c, level + 1, next);
    }
  }

  lemma Split2(a: seq<Token>, b: seq<Token>)
    requires Lexed(a + b)
    ensures Lexed(a) && Lexed(b)
  {
    assert forall t :: t in a || t in b ==> t in a + b;
  }

  lemma Split4(a: seq<Token>, b: seq<Token>, c: seq<Token>, d: seq<Token>)
    requires Lexed(a + b + c + d)
    ensures Lexed(a) && Lexed(b) && Lexed(c) && Lexed(d)
  {
    Split2(a + b + c, d);
    Split2(a + b, c);
    Split2(a, b);
  }

  lemma NameOf(ts: seq<Token>, name: string)
    requires Lexed(ts) && Id(name) in ts
    ensures IsName(name)
  {
  }

  /** A well-formed tree of lexed tokens abstracts to an expression that can be printed. */
  lemma {:induction false} TreePrintable(c: Cst, level: nat, next: Kind)
    requires level <= 11 && Fits(c, level, next) && Lexed(Flatten(c))
    ensures Printable(Abstract(c))
    decreases c, 0, 2
  {
    hide Lexed, IsName, Full, FitsList, FitsFields;
    FitsOwn(c, level, next);
    match c
    case CNot(o) =>
      Split2([NOT], Flatten(o));
      InnerPrintable(o, 9, next);
    case CBinary(t, l, r) =>
      BinaryPrintable(c, next);
    case CTernary(_, _, _) => TernaryPrintable(c, next);
    case CPipe(_, _, _) => PipePrintable(c, next);
    case CPipeBare(_, _) => PipePrintable(c, next);
    case CDot(_, _) => ChainPrintable(c, next);
    case CMethod(_, _, _) => ChainPrintable(c, next);
    case COptional(_, _) => ChainPrintable(c, next);
    case CIndex(_, _) => ChainPrintable(c, next);
    case CCall(_, _) => ChainPrintable(c, next);
    case _ => PrimaryPrintable(c, next);
  }

  lemma {:induction false} TernaryPrintable(c: Cst, next: Kind)
    requires c.CTernary? && Fits(c, 1, next) && Lexed(Flatten(c))
    ensures Printable(Abstract(c))
    decreases c, 0, 0
  {
    hide Lexed, Full;
    Split4(Flatten(c.condition) + [QUESTION], Flatten(c.thn), [COLON], Flatten(c.els));
    Split2(Flatten(c.condition), [QUESTION]);
    InnerPrintable(c.condition, 2, Question);
    InnerPrintable(c.thn, 0, Colon);
    InnerPrintable(c.els, 0, next);
  }

  lemma {:induction false} PipePrintable(c: Cst, next: Kind)
    requires OwnLevel(c) == 0 && Fits(c, 0, next) && Lexed(Flatten(c))
    ensures Printable(Abstract(c))
    decreases c, 0, 0
  {
    hide Lexed, IsName, Full, FitsList;
    match c
    case CPipe(v, f, args) =>
      Split4(Flatten(v), [PIPE, Id(f), LPAREN], FlattenList(args), [RPAREN]);
      NameOf([PIPE, Id(f), LPAREN], f);
      TreePrintable(v, 0, Pipe);
      ListPrintable(args, RParen);
    case CPipeBare(v, f) =>
      Split2(Flatten(v), [PIPE, Id(f)]);
      NameOf([PIPE, Id(f)], f);
      TreePrintable(v, 0, Pipe);
  }

  lemma {:induction false} ChainPrintable(c: Cst, next: Kind)
    requires OwnLevel(c) == 10 && Fits(c, 10, next) && Lexed(Flatten(c))
    ensures Printable(Abstract(c))
    decreases c, 0, 1
  {
    hide Lexed, Printable, Abstract;
    match c
    case CDot(_, _) => NamePrintable(c);
    case CMethod(_, _, _) => MethodPrintable(c);
    case COptional(_, _) => NamePrintable(c);
    case CIndex(_, _) => IndexPrintable(c);
    case CCall(_, _) => CallPrintable(c);
  }

  /** `.name` and `?.name`. */
  lemma {:induction false} NamePrintable(c: Cst)
    requires (c.CDot? && Fits(c.obj, 10, Dot)) || (c.COptional? && Fits(c.obj, 10, OptionalChain))
    requires Lexed(Flatten(c))
    ensures Printable(Abstract(c))
    decreases c, 0, 0
  {
    hide Lexed, IsName, Fits;
    var op := if c.CDot? then DOT else OPTIONAL;
    Split2(Flatten(c.obj), [op, Id(c.field)]);
    NameOf([op, Id(c.field)], c.field);
    TreePrintable(c.obj, 10, op.kind);
  }

  lemma {:induction false} MethodPrintable(c: Cst)
    requires c.CMethod? && Fits(c.obj, 10, Dot) && FitsList(c.args, RParen) && Lexed(Flatten(c))
    ensures Printable(Abstract(c))
    decreases c, 0, 0
  {
    hide Lexed, IsName, Fits, FitsList;
    Split4(Flatten(c.obj), [DOT, Id(c.field), LPAREN], FlattenList(c.args), [RPAREN]);
    NameOf([DOT, Id(c.field), LPAREN], c.field);
    TreePrintable(c.obj, 10, Dot);
    ListPrintable(c.args, RParen);
  }

  lemma {:induction false} IndexPrintable(c: Cst)
    requires c.CIndex? && Fits(c.obj, 10, LBracket) && Full(c.index, 0, RBracket) && Lexed(Flatten(c))
    ensures Printable(Abstract(c))
    decreases c, 0, 0
  {
    hide Lexed, Fits, Full;
    Split4(Flatten(c.obj), [LBRACKET], Flatten(c.index), [RBRACKET]);
    TreePrintable(c.obj, 10, LBracket);
    InnerPrintable(c.index, 0, RBracket);
  }

  lemma {:induction false} CallPrintable(c: Cst)
    requires c.CCall? && Fits(c.obj, 10, LParen) && FitsList(c.args, RParen) && Lexed(Flatten(c))
    ensures Printable(Abstract(c))
    decreases c, 0, 0
  {
    hide Lexed, Fits, FitsList;
    Split4(Flatten(c.obj), [LPAREN], FlattenList(c.args), [RPAREN]);
    TreePrintable(c.obj, 10, LParen);
    ListPrintable(c.args, RParen);
  }

  lemma {:induction false} PrimaryPrintable(c: Cst, next: Kind)
    requires FitsPrimary(c, next) && Lexed(Flatten(c))
    ensures Printable(Abstract(c))
    decreases c, 0, 0
  {
    hide Lexed, IsName, Full, FitsList, FitsFields, WellSpelled, LiteralOf;
    match c
    case CToken(t) => TokenPrintable(t);
    case CParen(inner) =>
      Split2([LPAREN] + Flatten(inner), [RPAREN]);
      Split2([LPAREN], Flatten(inner));
      InnerPrintable(inner, 0, RParen);
    case CLambda(p, body) =>
      Split2([Id(p), ARROW], Flatten(body));
      NameOf([Id(p), ARROW], p);
      InnerPrintable(body, 0, next);
    case CArray(es) =>
      Split2([LBRACKET] + FlattenList(es), [RBRACKET]);
      Split2([LBRACKET], FlattenList(es));
      ListPrintable(es, RBracket);
    case CObject(ks, vs) =>
      Split2([LBRACE] + FlattenFields(ks, vs), [RBRACE]);
      Split2([LBRACE], FlattenFields(ks, vs));
      FieldsPrintable(ks, vs);
  }

  lemma TokenPrintable(t: Token)
    requires Lexed([t]) && (t.kind == Ident || LiteralOf(t).Some?)
    ensures Printable(Abstract(CToken(t)))
  {
    assert t in [t];
  }

  lemma {:induction false} InnerPrintable(c: Cst, level: nat, next: Kind)
    requires level <= 11 && Full(c, level, next) && Lexed(Flatten(c))
    ensures Printable(Abstract(c))
    decreases c, 1
  {
    FullFits(c, level, next);
    TreePrintable(c, level, next);
  }

  lemma OperatorPrintable(t: Token)
    requires IsBinary(t.kind) && (WellSpelled(t) || t.kind == EOF)
    ensures t.kind == NullCoalesce || KnownOperator(Operator(t))
  {
    assert OperatorKind(t.value) == Some(t.kind);
    if t.kind == Or || t.kind == And {
      assert t.value == [t.value[0], t.value[1]];
    }
  }

  lemma BinaryParts(c: Cst, next: Kind)
    requires c.CBinary? && OwnLevel(c) <= 8 && Fits(c, OwnLevel(c), next)
    ensures IsBinary(c.tok.kind) && Fits(c.left, OwnLevel(c), c.tok.kind) && Full(c.right, OwnLevel(c) + 1, next)
  {
  }

  lemma {:induction false} BinaryPrintable(c: Cst, next: Kind)
    requires c.CBinary? && OwnLevel(c) <= 8 && Fits(c, OwnLevel(c), next) && Lexed(Flatten(c))
    ensures Printable(Abstract(c))
    decreases c, 0, 0
  {
    hide Lexed, WellSpelled, Level, Fits, Full, OwnLevel, Printable;
    BinaryParts(c, next);
    Split2(Flatten(c.left) + [c.tok], Flatten(c.right));
    Split2(Flatten(c.left), [c.tok]);
    TreePrintable(c.left, OwnLevel(c), c.tok.kind);
    InnerPrintable(c.right, OwnLevel(c) + 1, next);
    PartsPrintable(c);
  }

  lemma PartsPrintable(c: Cst)
    requires c.CBinary? && IsBinary(c.tok.kind) && Lexed([c.tok]) && Printable(Abstract(c.left)) && Printable(Abstract(c.right))
    ensures Printable(Abstract(c))
  {
    hide WellSpelled, KnownOperator, Operator;
    assert c.tok in [c.tok];
    OperatorPrintable(c.tok);
  }

  lemma {:induction false} ListPrintable(cs: seq<Cst>, closer: Kind)
    requires FitsList(cs, closer) && Lexed(FlattenList(cs))
    ensures AllPrintable(AbstractAll(cs))
    decreases cs, 1
  {
    hide Lexed, Full;
    if cs != [] {
      if |cs| > 1 {
        Split2(Flatten(cs[0]) + [COMMA], FlattenList(cs[1..]));
        Split2(Flatten(cs[0]), [COMMA]);
        ListPrintable(cs[1..], closer);
      }
      InnerPrintable(cs[0], 0, if |cs| == 1 then closer else Comma);
    }
  }

  lemma {:induction false} FieldsPrintable(ks: seq<Token>, vs: seq<Cst>)
    requires |ks| == |vs| && FitsFields(ks, vs) && Lexed(FlattenFields(ks, vs))
    ensures AllPrintable(AbstractAll(vs))
    decreases vs, 1
  {
    hide Lexed, Full;
    if ks != [] {
      var head := [ks[0], COLON];
      if |vs| > 1 {
        Split4(head, Flatten(vs[0]), [COMMA], FlattenFields(ks[1..], vs[1..]));
        FieldsPrintable(ks[1..], vs[1..]);
      } else {
        Split2(head, Flatten(vs[0]));
      }
      InnerPrintable(vs[0], 0, if |vs| == 1 then RBrace else Comma);
    }
  }
}
