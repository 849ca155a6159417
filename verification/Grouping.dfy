/** How operators group: precedence and associativity. */
module Grouping {
  import opened Options
  import opened Tokens
  import opened Spelling
  import opened Syntax
  import opened Grammar
  import opened Recognition
  import opened Parsing
  import opened Printing
  import RoundTrip

  // Said with the texts of the operators. Any legible text of the tokens is meant, however it is spaced.

  /** The operators in groups, from the loosest; 0 for what is none. */
  function Group(op: string): nat {
    if op == "??" then 1
    else if op == "||" then 2
    else if op == "&&" then 3
    else if op == "==" || op == "!=" then 4
    else if op == ">" || op == ">=" || op == "<" || op == "<=" then 5
    else if op == "+" || op == "-" then 6
    else if op == "*" || op == "/" || op == "%" then 7
    else 0
  }

  function Joined(op: string, l: Expr, r: Expr): Expr {
    if op == "??" then NullCoalesceExpr(l, r) else BinaryExpr(op, l, r)
  }

  /** The token that an operator's text is lexed to. */
  function Op(op: string): Token
    requires Group(op) > 0
  {
    OperatorMeaning(op);
    Token(OperatorKind(op).value, op)
  }

  lemma OperatorMeaning(op: string)
    requires Group(op) > 0
    ensures OperatorKind(op).Some? && Group(op) <= 7
    ensures var t := Token(OperatorKind(op).value, op);
            && WellSpelled(t) && IsBinary(t.kind) && Level(t.kind) == Group(op) + 1 && t.kind != Arrow
            && (t.kind == NullCoalesce <==> op == "??") && Operator(t) == op && Before(Group(op) + 1, t.kind)
  {
    hide WellSpelled, Level, Operator, Before;
    if |op| == 2 {
      LongOperator(op);
    } else {
      ShortOperator(op);
    }
  }

  lemma LongOperator(op: string)
    requires Group(op) > 0 && |op| == 2
    ensures OperatorKind(op).Some? && Group(op) <= 7
    ensures var t := Token(OperatorKind(op).value, op);
            && WellSpelled(t) && IsBinary(t.kind) && Level(t.kind) == Group(op) + 1 && t.kind != Arrow
            && (t.kind == NullCoalesce <==> op == "??") && Operator(t) == op && Before(Group(op) + 1, t.kind)
  {
    assert op == [op[0], op[1]];
  }

  lemma ShortOperator(op: string)
    requires Group(op) > 0 && |op| == 1
    ensures OperatorKind(op).Some? && Group(op) <= 7
    ensures var t := Token(OperatorKind(op).value, op);
            && WellSpelled(t) && IsBinary(t.kind) && Level(t.kind) == Group(op) + 1 && t.kind != Arrow
            && (t.kind == NullCoalesce <==> op == "??") && Operator(t) == op && Before(Group(op) + 1, t.kind)
  {
    assert op == [op[0]];
  }

  /** A name, or a whole expression in parentheses. */
  ghost predicate Operand(c: Cst) {
    (c.CToken? && c.tok.kind == Ident) || (c.CParen? && Full(c.inner, 0, RParen))
  }

  /** Every legible text of these tokens denotes e. */
  ghost predicate Denotes(ts: seq<Token>, e: Expr) {
    forall seps: seq<string> :: |seps| == |ts| && Legible(ts, seps, true) ==> Meaning(Render(ts, seps)) == Some(e)
  }

  lemma TreeDenotes(c: Cst, e: Expr)
    requires Full(c, 0, EOF) && Abstract(c) == e
    ensures Denotes(Flatten(c), e)
  {
    hide Full, Abstract, Flatten, Meaning, Legible;
    forall seps: seq<string> | |seps| == |Flatten(c)| && Legible(Flatten(c), seps, true)
      ensures Meaning(Render(Flatten(c), seps)) == Some(e)
    {
      RoundTrip.AnyTextReadsBack(c, seps);
    }
  }

  // ---------- Trees of operators ----------

  /** An operand fits wherever an operand may stand. */
  lemma OperandFits(c: Cst, k: nat, f: Kind)
    requires Operand(c) && k <= 10 && Before(k, f) && f != Arrow
    ensures Fits(c, k, f) && (Level(f) != k ==> Full(c, k, f))
  {
    hide Fits, Full, Before, Level;
    OperandPrimary(c, f);
    PrimaryFits(c, k, f);
  }

  lemma OperandPrimary(c: Cst, f: Kind)
    requires Operand(c) && f != Arrow
    ensures FitsPrimary(c, f)
  {
  }

  ghost function Tree(op: string, l: Cst, r: Cst): Cst
    requires Group(op) > 0
  {
    CBinary(Op(op), l, r)
  }

  lemma TreeMeans(op: string, l: Cst, r: Cst)
    requires Group(op) > 0
    ensures Abstract(Tree(op, l, r)) == Joined(op, Abstract(l), Abstract(r))
    ensures Flatten(Tree(op, l, r)) == Flatten(l) + [Op(op)] + Flatten(r)
  {
    hide WellSpelled, Level, Before, Abstract, Flatten, OperatorKind;
    OperatorMeaning(op);
    BinaryMeans(Op(op), l, r);
  }

  lemma BinaryMeans(t: Token, l: Cst, r: Cst)
    ensures Abstract(CBinary(t, l, r)) ==
            if t.kind == NullCoalesce then NullCoalesceExpr(Abstract(l), Abstract(r)) else BinaryExpr(Operator(t), Abstract(l), Abstract(r))
    ensures Flatten(CBinary(t, l, r)) == Flatten(l) + [t] + Flatten(r)
  {
  }

  lemma NotMeans(x: Cst)
    ensures Abstract(CNot(x)) == UnaryExpr(Abstract(x)) && Flatten(CNot(x)) == [NOT] + Flatten(x)
  {
  }

  lemma DotMeans(x: Cst, f: string)
    ensures Abstract(CDot(x, f)) == DotExpr(Abstract(x), f) && Flatten(CDot(x, f)) == Flatten(x) + [DOT, Id(f)]
  {
  }

  lemma TernaryMeans(x: Cst, t: Cst, e: Cst)
    ensures Abstract(CTernary(x, t, e)) == TernaryExpr(Abstract(x), Abstract(t), Abstract(e))
    ensures Flatten(CTernary(x, t, e)) == Flatten(x) + [QUESTION] + Flatten(t) + [COLON] + Flatten(e)
  {
  }

  lemma PipeMeans(x: Cst, f: string)
    ensures Abstract(CPipeBare(x, f)) == PipeExpr(Abstract(x), f, []) && Flatten(CPipeBare(x, f)) == Flatten(x) + [PIPE, Id(f)]
  {
  }

  lemma Joins(a: seq<Token>, b: seq<Token>, c: seq<Token>, d: seq<Token>)
    ensures a + (b + c + d) == a + b + c + d && a + (b + c) == a + b + c
  {
  }

  /** An operator between operands, at a level that its own is not below, before what does not bind tighter. */
  lemma TreeFits(op: string, l: Cst, r: Cst, k: nat, f: Kind)
    requires Group(op) > 0 && Operand(l) && Operand(r) && k <= Group(op) + 1 && Before(k, f) && f != Arrow
    ensures Fits(Tree(op, l, r), k, f) && (Level(f) != k ==> Full(Tree(op, l, r), k, f))
  {
    hide WellSpelled, Operator, Fits, Full, OperatorKind, Group, Operand, Before, Level;
    OperatorMeaning(op);
    OperandFits(l, Group(op) + 1, Op(op).kind);
    BeforeHigher(k, Group(op) + 2, f);
    OperandFits(r, Group(op) + 2, f);
    BinaryFits(Tree(op, l, r), k, f);
  }

  /** The tighter operator takes the operand between the two; of equally tight ones the left. */
  lemma OperatorsGroup(x: Cst, o: string, y: Cst, o': string, z: Cst)
    requires Operand(x) && Operand(y) && Operand(z) && Group(o) > 0 && Group(o') > 0
    ensures Denotes(Flatten(x) + [Op(o)] + Flatten(y) + [Op(o')] + Flatten(z),
              if Group(o) < Group(o') then Joined(o, Abstract(x), Joined(o', Abstract(y), Abstract(z)))
              else Joined(o', Joined(o, Abstract(x), Abstract(y)), Abstract(z)))
  {
    hide WellSpelled, Operator, Fits, Full, OperatorKind, Group, Operand, Abstract, Flatten, Denotes, Level;
    TreeMeans(o, x, y);
    TreeMeans(o', y, z);
    if Group(o) < Group(o') {
      RightGroups(x, o, y, o', z);
      var c := Tree(o, x, Tree(o', y, z));
      TreeMeans(o, x, Tree(o', y, z));
      TreeDenotes(c, Abstract(c));
      assert Flatten(c) == Flatten(x) + [Op(o)] + Flatten(y) + [Op(o')] + Flatten(z);
    } else {
      LeftGroups(x, o, y, o', z);
      var c := Tree(o', Tree(o, x, y), z);
      TreeMeans(o', Tree(o, x, y), z);
      TreeDenotes(c, Abstract(c));
      assert Flatten(c) == Flatten(x) + [Op(o)] + Flatten(y) + [Op(o')] + Flatten(z);
    }
  }

  lemma RightGroups(x: Cst, o: string, y: Cst, o': string, z: Cst)
    requires Operand(x) && Operand(y) && Operand(z) && 0 < Group(o) < Group(o')
    ensures Full(Tree(o, x, Tree(o', y, z)), 0, EOF)
  {
    hide WellSpelled, Operator, Fits, Full, OperatorKind, Group, Operand;
    OperatorMeaning(o);
    OperandFits(x, Group(o) + 1, Op(o).kind);
    TreeFits(o', y, z, Group(o) + 2, EOF);
    BinaryFits(Tree(o, x, Tree(o', y, z)), 0, EOF);
  }

  lemma LeftGroups(x: Cst, o: string, y: Cst, o': string, z: Cst)
    requires Operand(x) && Operand(y) && Operand(z) && Group(o) >= Group(o') > 0
    ensures Full(Tree(o', Tree(o, x, y), z), 0, EOF)
  {
    hide WellSpelled, Operator, Fits, Full, OperatorKind, Group, Operand;
    OperatorMeaning(o');
    TreeFits(o, x, y, Group(o') + 1, Op(o').kind);
    OperandFits(z, Group(o') + 2, EOF);
    BinaryFits(Tree(o', Tree(o, x, y), z), 0, EOF);
  }

  // ---------- Negation, member access, ternaries and pipes ----------

  /** `!` takes the operand behind it, with its member accesses, and not what an operator adds. */
  lemma NegationGroups(x: Cst, f: string, o: string, y: Cst)
    requires Operand(x) && Operand(y) && Group(o) > 0
    ensures Denotes([NOT] + Flatten(x) + [Op(o)] + Flatten(y), Joined(o, UnaryExpr(Abstract(x)), Abstract(y)))
    ensures Denotes([NOT] + Flatten(x) + [DOT, Id(f)], UnaryExpr(DotExpr(Abstract(x), f)))
    ensures Denotes(Flatten(x) + [Op(o)] + ([NOT] + Flatten(y)), Joined(o, Abstract(x), UnaryExpr(Abstract(y))))
  {
    hide Full, Group, Operand, Denotes, Abstract, Flatten, Op, Tree, Joined;
    NegatedLeft(x, o, y);
    TreeMeans(o, CNot(x), y);
    NotMeans(x);
    TreeDenotes(Tree(o, CNot(x), y), Joined(o, UnaryExpr(Abstract(x)), Abstract(y)));
    NegatedMember(x, f);
    DotMeans(x, f);
    NotMeans(CDot(x, f));
    TreeDenotes(CNot(CDot(x, f)), UnaryExpr(DotExpr(Abstract(x), f)));
    Joins([NOT], Flatten(x), [DOT, Id(f)], []);
    NegatedRight(x, o, y);
    TreeMeans(o, x, CNot(y));
    NotMeans(y);
    TreeDenotes(Tree(o, x, CNot(y)), Joined(o, Abstract(x), UnaryExpr(Abstract(y))));
  }

  lemma EndLevel()
    ensures Level(EOF) == 12 && forall k: nat :: Before(k, EOF)
  {
  }

  lemma NegatedLeft(x: Cst, o: string, y: Cst)
    requires Operand(x) && Operand(y) && Group(o) > 0
    ensures Full(Tree(o, CNot(x), y), 0, EOF)
  {
    hide WellSpelled, Operator, Fits, Full, OperatorKind, Group, Operand, Level;
    OperatorMeaning(o);
    EndLevel();
    OperandFits(x, 9, Op(o).kind);
    NotFits(CNot(x), Group(o) + 1, Op(o).kind);
    OperandFits(y, Group(o) + 2, EOF);
    BinaryFits(Tree(o, CNot(x), y), 0, EOF);
  }

  lemma NegatedMember(x: Cst, f: string)
    requires Operand(x)
    ensures Full(CNot(CDot(x, f)), 0, EOF)
  {
    hide Fits, Full, Operand;
    OperandFits(x, 10, Dot);
    PostfixFits(CDot(x, f), 9, EOF);
    NotFits(CNot(CDot(x, f)), 0, EOF);
  }

  lemma NegatedRight(x: Cst, o: string, y: Cst)
    requires Operand(x) && Operand(y) && Group(o) > 0
    ensures Full(Tree(o, x, CNot(y)), 0, EOF)
  {
    hide WellSpelled, Operator, Fits, Full, OperatorKind, Group, Operand;
    OperatorMeaning(o);
    OperandFits(x, Group(o) + 1, Op(o).kind);
    OperandFits(y, 9, EOF);
    NotFits(CNot(y), Group(o) + 2, EOF);
    BinaryFits(Tree(o, x, CNot(y)), 0, EOF);
  }

  /** Member access binds tighter than any operator. */
  lemma MembersGroup(x: Cst, o: string, y: Cst, f: string)
    requires Operand(x) && Operand(y) && Group(o) > 0
    ensures Denotes(Flatten(x) + [Op(o)] + (Flatten(y) + [DOT, Id(f)]), Joined(o, Abstract(x), DotExpr(Abstract(y), f)))
  {
    hide Full, Group, Operand, Denotes, Abstract, Flatten, Op, Tree, Joined;
    MemberRight(x, o, y, f);
    TreeMeans(o, x, CDot(y, f));
    DotMeans(y, f);
    TreeDenotes(Tree(o, x, CDot(y, f)), Joined(o, Abstract(x), DotExpr(Abstract(y), f)));
  }

  lemma MemberRight(x: Cst, o: string, y: Cst, f: string)
    requires Operand(x) && Operand(y) && Group(o) > 0
    ensures Full(Tree(o, x, CDot(y, f)), 0, EOF)
  {
    hide WellSpelled, Operator, Fits, Full, OperatorKind, Group, Operand;
    OperatorMeaning(o);
    OperandFits(x, Group(o) + 1, Op(o).kind);
    OperandFits(y, 10, Dot);
    PostfixFits(CDot(y, f), Group(o) + 2, EOF);
    BinaryFits(Tree(o, x, CDot(y, f)), 0, EOF);
  }

  /** `?` takes the whole operator expression before it. */
  lemma ConditionGroups(x: Cst, o: string, y: Cst, t: Cst, u: Cst)
    requires Operand(x) && Operand(y) && Operand(t) && Operand(u) && Group(o) > 0
    ensures Denotes((Flatten(x) + [Op(o)] + Flatten(y)) + [QUESTION] + Flatten(t) + [COLON] + Flatten(u),
              TernaryExpr(Joined(o, Abstract(x), Abstract(y)), Abstract(t), Abstract(u)))
  {
    hide Full, Group, Operand, Denotes, Abstract, Flatten, Op, Tree, Joined;
    TernaryWhole(x, o, y, t, u);
    TreeMeans(o, x, y);
    TernaryMeans(Tree(o, x, y), t, u);
    TreeDenotes(CTernary(Tree(o, x, y), t, u), TernaryExpr(Joined(o, Abstract(x), Abstract(y)), Abstract(t), Abstract(u)));
  }

  /** `:` takes the whole operator expression behind it. */
  lemma BranchGroups(c: Cst, t: Cst, x: Cst, o: string, y: Cst)
    requires Operand(x) && Operand(y) && Operand(t) && Operand(c) && Group(o) > 0
    ensures Denotes(Flatten(c) + [QUESTION] + Flatten(t) + [COLON] + (Flatten(x) + [Op(o)] + Flatten(y)),
              TernaryExpr(Abstract(c), Abstract(t), Joined(o, Abstract(x), Abstract(y))))
  {
    hide Full, Group, Operand, Denotes, Abstract, Flatten, Op, Tree, Joined;
    TernaryWhole(x, o, y, t, c);
    TreeMeans(o, x, y);
    TernaryMeans(c, t, Tree(o, x, y));
    TreeDenotes(CTernary(c, t, Tree(o, x, y)), TernaryExpr(Abstract(c), Abstract(t), Joined(o, Abstract(x), Abstract(y))));
  }

  lemma TernaryWhole(x: Cst, o: string, y: Cst, t: Cst, u: Cst)
    requires Operand(x) && Operand(y) && Operand(t) && Operand(u) && Group(o) > 0
    ensures Full(CTernary(Tree(o, x, y), t, u), 0, EOF) && Full(CTernary(u, t, Tree(o, x, y)), 0, EOF)
  {
    hide WellSpelled, Operator, Fits, Full, OperatorKind, Group, Operand;
    OperatorMeaning(o);
    TreeFits(o, x, y, 2, Question);
    OperandFits(t, 0, Colon);
    OperandFits(u, 0, EOF);
    TernaryFits(CTernary(Tree(o, x, y), t, u), 0, EOF);
    OperandFits(u, 2, Question);
    TreeFits(o, x, y, 0, EOF);
    TernaryFits(CTernary(u, t, Tree(o, x, y)), 0, EOF);
  }

  /** `|` takes the whole operator expression before it; behind a ternary, that of its last branch. */
  lemma PipeGroups(x: Cst, o: string, y: Cst, f: string, c: Cst, t: Cst)
    requires Operand(x) && Operand(y) && Operand(c) && Operand(t) && Group(o) > 0
    ensures Denotes(Flatten(x) + [Op(o)] + Flatten(y) + [PIPE, Id(f)], PipeExpr(Joined(o, Abstract(x), Abstract(y)), f, []))
    ensures Denotes(Flatten(c) + [QUESTION] + Flatten(t) + [COLON] + Flatten(x) + [PIPE, Id(f)],
              TernaryExpr(Abstract(c), Abstract(t), PipeExpr(Abstract(x), f, [])))
  {
    hide WellSpelled, Operator, Fits, Full, OperatorKind, Group, Operand, Denotes, Abstract, Flatten, Level, Op;
    DotLevel();
    TreeFits(o, x, y, 0, Pipe);
    PipeWhole(Tree(o, x, y), f);
    TreeMeans(o, x, y);
    PipeMeans(Tree(o, x, y), f);
    TreeDenotes(CPipeBare(Tree(o, x, y), f), Abstract(CPipeBare(Tree(o, x, y), f)));
    PipeInBranch(c, t, x, f);
  }

  lemma PipeWhole(v: Cst, f: string)
    requires Fits(v, 0, Pipe)
    ensures Full(CPipeBare(v, f), 0, EOF)
  {
    hide Fits, Full;
    PipeFits(CPipeBare(v, f), EOF);
  }

  lemma BranchWhole(c: Cst, t: Cst, x: Cst, f: string)
    requires Operand(c) && Operand(t) && Operand(x)
    ensures Full(CTernary(c, t, CPipeBare(x, f)), 0, EOF)
  {
    hide Fits, Full, Operand;
    OperandFits(c, 2, Question);
    OperandFits(t, 0, Colon);
    OperandFits(x, 0, Pipe);
    PipeWhole(x, f);
    TernaryFits(CTernary(c, t, CPipeBare(x, f)), 0, EOF);
  }

  lemma PipeInBranch(c: Cst, t: Cst, x: Cst, f: string)
    requires Operand(c) && Operand(t) && Operand(x)
    ensures Denotes(Flatten(c) + [QUESTION] + Flatten(t) + [COLON] + Flatten(x) + [PIPE, Id(f)],
              TernaryExpr(Abstract(c), Abstract(t), PipeExpr(Abstract(x), f, [])))
  {
    hide Fits, Full, Operand, Denotes, Abstract, Flatten;
    var b := CTernary(c, t, CPipeBare(x, f));
    BranchWhole(c, t, x, f);
    PipeMeans(x, f);
    TernaryMeans(c, t, CPipeBare(x, f));
    TreeDenotes(b, Abstract(b));
    Joins(Flatten(c) + [QUESTION] + Flatten(t) + [COLON], Flatten(x), [PIPE, Id(f)], []);
  }

  // ---------- The other forms ----------

  /** Two arguments fit between parentheses, two elements between brackets. */
  lemma PairFits(a: Cst, b: Cst, closer: Kind)
    requires Operand(a) && Operand(b) && (closer == RParen || closer == RBracket)
    ensures FitsList([a, b], closer) && AbstractAll([a, b]) == [Abstract(a), Abstract(b)]
    ensures FlattenList([a, b]) == Flatten(a) + [COMMA] + Flatten(b)
  {
    hide Fits, Operand;
    OperandFits(a, 0, Comma);
    OperandFits(b, 0, closer);
    assert [a, b][1..] == [b] && [b][1..] == [];
    assert Full(b, 0, closer) && FitsList([], closer) && FitsList([b], closer);
    assert Full(a, 0, Comma) && FitsList([a, b][1..], closer);
    assert AbstractAll([b]) == [Abstract(b)];
  }

  /** `.name`, `?.name`, `[index]`. */
  lemma AccessRead(x: Cst, i: Cst, f: string)
    requires Operand(x) && Operand(i)
    ensures Denotes(Flatten(x) + [DOT, Id(f)], DotExpr(Abstract(x), f))
    ensures Denotes(Flatten(x) + [OPTIONAL, Id(f)], OptionalChainExpr(Abstract(x), f))
    ensures Denotes(Flatten(x) + [LBRACKET] + Flatten(i) + [RBRACKET], IndexExpr(Abstract(x), Abstract(i)))
  {
    hide Fits, Full, Operand, Denotes;
    OperandFits(x, 10, Dot);
    PostfixFits(CDot(x, f), 0, EOF);
    TreeDenotes(CDot(x, f), DotExpr(Abstract(x), f));
    OperandFits(x, 10, OptionalChain);
    PostfixFits(COptional(x, f), 0, EOF);
    TreeDenotes(COptional(x, f), OptionalChainExpr(Abstract(x), f));
    OperandFits(x, 10, LBracket);
    OperandFits(i, 0, RBracket);
    PostfixFits(CIndex(x, i), 0, EOF);
    TreeDenotes(CIndex(x, i), IndexExpr(Abstract(x), Abstract(i)));
  }

  /** A call of two arguments. */
  lemma CallRead(x: Cst, a: Cst, b: Cst)
    requires Operand(x) && Operand(a) && Operand(b)
    ensures Denotes(Flatten(x) + [LPAREN] + (Flatten(a) + [COMMA] + Flatten(b)) + [RPAREN],
              CallExpr(Abstract(x), [Abstract(a), Abstract(b)]))
  {
    hide Fits, Full, Operand, Denotes, FitsList, FlattenList, AbstractAll;
    PairFits(a, b, RParen);
    OperandFits(x, 10, LParen);
    PostfixFits(CCall(x, [a, b]), 0, EOF);
    TreeDenotes(CCall(x, [a, b]), CallExpr(Abstract(x), [Abstract(a), Abstract(b)]));
  }

  /** A filter with two arguments. */
  lemma FilterRead(x: Cst, a: Cst, b: Cst, f: string)
    requires Operand(x) && Operand(a) && Operand(b)
    ensures Denotes(Flatten(x) + [PIPE, Id(f), LPAREN] + (Flatten(a) + [COMMA] + Flatten(b)) + [RPAREN],
              PipeExpr(Abstract(x), f, [Abstract(a), Abstract(b)]))
  {
    hide Fits, Full, Operand, Denotes, FitsList, FlattenList, AbstractAll;
    PairFits(a, b, RParen);
    OperandFits(x, 0, Pipe);
    PipeFits(CPipe(x, f, [a, b]), EOF);
    TreeDenotes(CPipe(x, f, [a, b]), PipeExpr(Abstract(x), f, [Abstract(a), Abstract(b)]));
  }

  /** The same filter as a member call. */
  lemma MemberCallRead(x: Cst, a: Cst, b: Cst, f: string)
    requires Operand(x) && Operand(a) && Operand(b)
    ensures Denotes(Flatten(x) + [DOT, Id(f), LPAREN] + (Flatten(a) + [COMMA] + Flatten(b)) + [RPAREN],
              PipeExpr(Abstract(x), f, [Abstract(a), Abstract(b)]))
  {
    hide Fits, Full, Operand, Denotes, FitsList, FlattenList, AbstractAll;
    PairFits(a, b, RParen);
    OperandFits(x, 10, Dot);
    PostfixFits(CMethod(x, f, [a, b]), 0, EOF);
    TreeDenotes(CMethod(x, f, [a, b]), PipeExpr(Abstract(x), f, [Abstract(a), Abstract(b)]));
  }

  lemma ArrayRead(x: Cst, y: Cst)
    requires Operand(x) && Operand(y)
    ensures Denotes([LBRACKET] + (Flatten(x) + [COMMA] + Flatten(y)) + [RBRACKET], ArrayExpr([Abstract(x), Abstract(y)]))
  {
    hide Fits, Full, Operand, Denotes, FitsList, FlattenList, AbstractAll;
    PairFits(x, y, RBracket);
    PrimaryFits(CArray([x, y]), 0, EOF);
    TreeDenotes(CArray([x, y]), ArrayExpr([Abstract(x), Abstract(y)]));
  }

  lemma LambdaRead(p: string, x: Cst)
    requires Operand(x)
    ensures Denotes([Id(p), ARROW] + Flatten(x), LambdaExpr(p, Abstract(x)))
  {
    hide Fits, Full, Operand, Denotes;
    OperandFits(x, 0, EOF);
    PrimaryFits(CLambda(p, x), 0, EOF);
    TreeDenotes(CLambda(p, x), LambdaExpr(p, Abstract(x)));
  }

  lemma TernaryRead(x: Cst, y: Cst, z: Cst)
    requires Operand(x) && Operand(y) && Operand(z)
    ensures Denotes(Flatten(x) + [QUESTION] + Flatten(y) + [COLON] + Flatten(z), TernaryExpr(Abstract(x), Abstract(y), Abstract(z)))
  {
    hide Fits, Full, Operand, Denotes, Abstract, Flatten;
    OperandFits(x, 2, Question);
    OperandFits(y, 0, Colon);
    OperandFits(z, 0, EOF);
    TernaryFits(CTernary(x, y, z), 0, EOF);
    TernaryMeans(x, y, z);
    TreeDenotes(CTernary(x, y, z), TernaryExpr(Abstract(x), Abstract(y), Abstract(z)));
  }

  /** Objects, with names and strings as keys. */
  lemma ObjectsRead(k: string, x: Cst, s: string, y: Cst)
    requires Operand(x) && Operand(y)
    ensures Denotes([LBRACE] + ([Id(k), COLON] + Flatten(x) + [COMMA] + ([Token(Str, s), COLON] + Flatten(y))) + [RBRACE],
              ObjectExpr([k, s], [Abstract(x), Abstract(y)]))
  {
    hide Full, Operand, Denotes, FitsFields, FlattenFields, KeyNames, AbstractAll;
    var ks, vs := [Id(k), Token(Str, s)], [x, y];
    TwoFieldsFit(k, x, s, y);
    TwoFieldsMean(k, x, s, y);
    PrimaryFits(CObject(ks, vs), 0, EOF);
    TreeDenotes(CObject(ks, vs), ObjectExpr([k, s], [Abstract(x), Abstract(y)]));
  }

  lemma TwoFieldsFit(k: string, x: Cst, s: string, y: Cst)
    requires Operand(x) && Operand(y)
    ensures FitsFields([Id(k), Token(Str, s)], [x, y])
  {
    hide Fits, Full, Operand;
    var ks, vs := [Id(k), Token(Str, s)], [x, y];
    OperandFits(x, 0, Comma);
    OperandFits(y, 0, RBrace);
    assert ks[1..] == [Token(Str, s)] && vs[1..] == [y] && ks[1..][1..] == [] && vs[1..][1..] == [];
    assert FitsFields(ks[1..], vs[1..]);
  }

  lemma TwoFieldsMean(k: string, x: Cst, s: string, y: Cst)
    ensures KeyNames([Id(k), Token(Str, s)]) == [k, s] && AbstractAll([x, y]) == [Abstract(x), Abstract(y)]
    ensures FlattenFields([Id(k), Token(Str, s)], [x, y]) ==
            [Id(k), COLON] + Flatten(x) + [COMMA] + ([Token(Str, s), COLON] + Flatten(y))
  {
    hide Abstract, Flatten;
    var ks, vs := [Id(k), Token(Str, s)], [x, y];
    assert ks[1..] == [Token(Str, s)] && vs[1..] == [y] && ks[1..][1..] == [] && vs[1..][1..] == [];
    assert KeyNames(ks[1..]) == [s];
    assert AbstractAll(vs[1..]) == [Abstract(y)];
    assert FlattenFields(ks[1..], vs[1..]) == [Token(Str, s), COLON] + Flatten(y);
  }

  /** Literals denote their values. */
  lemma LiteralsRead(s: string, n: Token, f: Token)
    requires n.kind == Int && ParseInt64(n.value).Some? && f.kind == Float && FloatInRange(f.value)
    ensures Denotes([Token(Str, s)], Lit(LString(s)))
    ensures Denotes([n], Lit(LInt(ParseInt64(n.value).value)))
    ensures Denotes([f], Lit(LFloat(f.value)))
  {
    hide Denotes, ParseInt64, FloatInRange;
    LiteralRead(Token(Str, s));
    LiteralRead(n);
    LiteralRead(f);
  }

  lemma WordsDenote()
    ensures Denotes([Token(Bool, "true")], Lit(LBool(true))) && Denotes([Token(Bool, "false")], Lit(LBool(false)))
    ensures Denotes([Token(NullLit, "null")], Lit(LNull))
  {
    hide Denotes;
    LiteralRead(Token(Bool, "true"));
    LiteralRead(Token(Bool, "false"));
    LiteralRead(Token(NullLit, "null"));
  }

  lemma LiteralRead(t: Token)
    requires LiteralOf(t).Some? && t.kind != Ident
    ensures Denotes([t], Lit(LiteralOf(t).value))
  {
    hide Fits, Full, Denotes, LiteralOf;
    PrimaryFits(CToken(t), 0, EOF);
    TreeDenotes(CToken(t), Lit(LiteralOf(t).value));
  }

  lemma DenotesThis(ts: seq<Token>, seps: seq<string>, e: Expr)
    requires Denotes(ts, e) && |seps| == |ts| && Legible(ts, seps, true)
    ensures Meaning(Render(ts, seps)) == Some(e)
  {
  }

  /** The texts of tokens with a blank behind each. */
  function Blanked(ts: seq<Token>): string {
    if ts == [] then "" else ts[0].value + (" " + Blanked(ts[1..]))
  }

  function Blanks(n: nat): (seps: seq<string>)
    ensures |seps| == n
  {
    if n == 0 then [] else [" "] + Blanks(n - 1)
  }

  lemma {:induction false} BlankedLegible(ts: seq<Token>, operand: bool)
    requires forall t :: t in ts ==> WellSpelled(t) && t.kind != Str && !Negative(t)
    ensures Legible(ts, Blanks(|ts|), operand) && Render(ts, Blanks(|ts|)) == Blanked(ts)
  {
    hide WellSpelled, Stops, Negative;
    if ts != [] {
      var seps := Blanks(|ts|);
      assert seps[1..] == Blanks(|ts| - 1) && seps[0] == " ";
      BlankedLegible(ts[1..], OperandExpected(ts[0].kind));
      assert ts[0] in ts;
      StopsAtBlank(ts[0], Render(ts[1..], seps[1..]), operand);
    }
  }

  /** The same as a text: names and operators with blanks between them. */
  lemma NamesGroup(x: string, o: string, y: string, o': string, z: string)
    requires IsName(x) && IsName(y) && IsName(z) && Group(o) > 0 && Group(o') > 0
    ensures Meaning(Blanked([Id(x), Op(o), Id(y), Op(o'), Id(z)])) == Some(
              if Group(o) < Group(o') then Joined(o, Name(x), Joined(o', Name(y), Name(z)))
              else Joined(o', Joined(o, Name(x), Name(y)), Name(z)))
  {
    hide Denotes, Group, Op, Joined, Legible, Render, Blanked, Blanks, Meaning;
    var ts := [Id(x), Op(o), Id(y), Op(o'), Id(z)];
    NamesDenote(x, o, y, o', z);
    OpWell(o);
    OpWell(o');
    BlankedLegible(ts, true);
    DenotesThis(ts, Blanks(|ts|), if Group(o) < Group(o') then Joined(o, Name(x), Joined(o', Name(y), Name(z)))
                                  else Joined(o', Joined(o, Name(x), Name(y)), Name(z)));
  }

  lemma NamesDenote(x: string, o: string, y: string, o': string, z: string)
    requires Group(o) > 0 && Group(o') > 0
    ensures Denotes([Id(x), Op(o), Id(y), Op(o'), Id(z)],
              if Group(o) < Group(o') then Joined(o, Name(x), Joined(o', Name(y), Name(z)))
              else Joined(o', Joined(o, Name(x), Name(y)), Name(z)))
  {
    hide Denotes, Group, Op, Joined;
    OperatorsGroup(CToken(Id(x)), o, CToken(Id(y)), o', CToken(Id(z)));
    assert [Id(x)] + [Op(o)] + [Id(y)] + [Op(o')] + [Id(z)] == [Id(x), Op(o), Id(y), Op(o'), Id(z)];
  }

  lemma OpWell(o: string)
    requires Group(o) > 0
    ensures WellSpelled(Op(o)) && Op(o).kind != Str && !Negative(Op(o)) && Op(o).value == o
  {
    OperatorMeaning(o);
  }
}
