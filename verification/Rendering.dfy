/**
 * The tokens of a printed tree can be written down: each is one the lexer can produce, and a number with a sign stands
 * only where an operand is expected, so that no sign is read as an operator and no operator as a sign.
 */
module Rendering {
  import opened Options
  import opened Tokens
  import opened Spelling
  import opened Syntax
  import opened Recognition
  import opened Printing

  ghost predicate AllWell(ts: seq<Token>) {
    forall t :: t in ts ==> WellSpelled(t)
  }

  /** Tokens that can be rendered: well spelled, with signs only where an operand is expected. */
  ghost predicate Written(ts: seq<Token>) {
    AllWell(ts) && SignsPlaced(ts, true)
  }

  predicate Unsigned(ts: seq<Token>) {
    forall i :: 0 <= i < |ts| ==> !Negative(ts[i])
  }

  lemma ThenOperand(a: seq<Token>, b: seq<Token>)
    requires Written(a) && Written(b) && a != [] && OperandExpected(a[|a| - 1].kind)
    ensures Written(a + b)
  {
    hide WellSpelled, Negative, OperandExpected;
    var ts := a + b;
    forall i | 0 <= i < |ts| && Negative(ts[i]) ensures OperandBefore(ts, i, true) {
      if i < |a| {
        assert OperandBefore(a, i, true);
      } else {
        assert OperandBefore(b, i - |a|, true);
      }
    }
  }

  lemma ThenPlain(a: seq<Token>, b: seq<Token>)
    requires Written(a) && AllWell(b) && Unsigned(b)
    ensures Written(a + b)
  {
    hide WellSpelled, Negative, OperandExpected;
    var ts := a + b;
    forall i | 0 <= i < |ts| && Negative(ts[i]) ensures OperandBefore(ts, i, true) {
      if i < |a| {
        assert OperandBefore(a, i, true);
      } else {
        assert false;
      }
    }
  }

  /** o open inner close, where the last token of `open` expects an operand. */
  lemma Bracketed(o: seq<Token>, open: seq<Token>, inner: seq<Token>, close: seq<Token>)
    requires Written(o) && AllWell(open) && Unsigned(open) && Written(inner) && AllWell(close) && Unsigned(close)
    requires open != [] && OperandExpected(open[|open| - 1].kind)
    ensures Written(o + open + inner + close) && Written(o + open + inner)
  {
    hide AllWell, SignsPlaced, Unsigned, OperandExpected;
    ThenPlain(o, open);
    ThenOperand(o + open, inner);
    ThenPlain(o + open + inner, close);
  }

  /** Punctuation is well spelled, and never a sign. */
  lemma PunctuationWell(t: Token)
    requires Punctuation(t.kind) == Some(t)
    ensures WellSpelled(t) && !Negative(t)
  {
  }

  lemma NameWell(op: Token, name: string)
    requires Punctuation(op.kind) == Some(op) && IsName(name)
    ensures AllWell([op, Id(name)]) && Unsigned([op, Id(name)])
    ensures AllWell([op, Id(name), LPAREN]) && Unsigned([op, Id(name), LPAREN])
  {
    PunctuationWell(op);
    PunctuationWell(LPAREN);
  }

  lemma OneWell(t: Token)
    requires WellSpelled(t) && !Negative(t)
    ensures AllWell([t]) && Unsigned([t])
  {
  }

  lemma MarkWell(t: Token)
    requires Punctuation(t.kind) == Some(t)
    ensures AllWell([t]) && Unsigned([t])
  {
    PunctuationWell(t);
  }

  /** The tokens of a spelled tree can be rendered. */
  lemma {:induction false} TreeWritten(c: Cst)
    requires Spelled(c)
    ensures Written(Flatten(c))
    decreases c, 0, 2
  {
    hide Written, AllWell, Unsigned, OperandExpected;
    match c
    case CToken(t) => LoneToken(t);
    case CParen(inner) =>
      TreeWritten(inner);
      Enclosed(LPAREN, Flatten(inner), RPAREN);
    case CLambda(p, body) =>
      TreeWritten(body);
      ArrowWritten(p, Flatten(body));
    case CArray(es) =>
      ListWritten(es);
      Enclosed(LBRACKET, FlattenList(es), RBRACKET);
    case CObject(ks, vs) =>
      FieldsWritten(ks, vs);
      BracesWritten(FlattenFields(ks, vs));
    case CNot(o) =>
      TreeWritten(o);
      MarkWell(NOT);
      NotWritten(Flatten(o));
    case CBinary(t, l, r) =>
      TreeWritten(l);
      TreeWritten(r);
      BinaryWritten(t, Flatten(l), Flatten(r));
    case CTernary(x, t, e) =>
      TreeWritten(x);
      TreeWritten(t);
      TreeWritten(e);
      TernaryWritten(Flatten(x), Flatten(t), Flatten(e));
    case _ => ChainWritten(c);
  }

  lemma {:induction false} ChainWritten(c: Cst)
    requires Spelled(c) && (c.CDot? || c.CMethod? || c.COptional? || c.CIndex? || c.CCall? || c.CPipe? || c.CPipeBare?)
    ensures Written(Flatten(c))
    decreases c, 0, 1
  {
    hide Written, Spelled, Flatten;
    match c
    case CDot(o, f) => SuffixWritten(c, o, DOT, f);
    case CMethod(o, f, args) => ArgsWritten(c, o, [DOT, Id(f), LPAREN], args);
    case COptional(o, f) => SuffixWritten(c, o, OPTIONAL, f);
    case CIndex(o, i) => BracketWritten(c);
    case CCall(o, args) => ArgsWritten(c, o, [LPAREN], args);
    case CPipe(v, f, args) => ArgsWritten(c, v, [PIPE, Id(f), LPAREN], args);
    case CPipeBare(v, f) => SuffixWritten(c, v, PIPE, f);
  }

  /** `.name`, `?.name` or `| name`. */
  lemma {:induction false} SuffixWritten(c: Cst, o: Cst, op: Token, name: string)
    requires Spelled(c)
    requires || (c == CDot(o, name) && op == DOT)
             || (c == COptional(o, name) && op == OPTIONAL)
             || (c == CPipeBare(o, name) && op == PIPE)
    ensures Written(Flatten(c))
    decreases c, 0, 0
  {
    hide Written, AllWell, Unsigned, OperandExpected;
    TreeWritten(o);
    NameWell(op, name);
    ThenPlain(Flatten(o), [op, Id(name)]);
  }

  /** Arguments in parentheses, with what stands before them. */
  lemma {:induction false} ArgsWritten(c: Cst, o: Cst, open: seq<Token>, args: seq<Cst>)
    requires Spelled(c)
    requires || (c.CMethod? && c == CMethod(o, c.field, args) && open == [DOT, Id(c.field), LPAREN])
             || (c.CPipe? && c == CPipe(o, c.filter, args) && open == [PIPE, Id(c.filter), LPAREN])
             || (c == CCall(o, args) && open == [LPAREN])
    ensures Written(Flatten(c))
    decreases c, 0, 0
  {
    hide Written, AllWell, Unsigned, OperandExpected;
    TreeWritten(o);
    ListWritten(args);
    if c.CMethod? {
      NameWell(DOT, c.field);
    } else if c.CPipe? {
      NameWell(PIPE, c.filter);
    } else {
      MarkWell(LPAREN);
    }
    CallWritten(Flatten(o), open, FlattenList(args));
  }

  lemma {:induction false} BracketWritten(c: Cst)
    requires Spelled(c) && c.CIndex?
    ensures Written(Flatten(c))
    decreases c, 0, 0
  {
    hide Written, AllWell, Unsigned, OperandExpected;
    TreeWritten(c.obj);
    TreeWritten(c.index);
    IndexWritten(Flatten(c.obj), Flatten(c.index));
  }

  lemma LoneToken(t: Token)
    requires WellSpelled(t)
    ensures Written([t])
  {
  }

  lemma Enclosed(open: Token, inner: seq<Token>, close: Token)
    requires Written(inner) && (open == LPAREN || open == LBRACKET) && Punctuation(close.kind) == Some(close)
    ensures Written([open] + inner + [close])
  {
    MarkWell(open);
    MarkWell(close);
    Bracketed([], [open], inner, [close]);
    assert [] + [open] == [open];
  }

  lemma ArrowWritten(p: string, body: seq<Token>)
    requires IsName(p) && Written(body)
    ensures Written([Id(p), ARROW] + body)
  {
    PunctuationWell(ARROW);
    Bracketed([], [Id(p), ARROW], body, []);
    assert [] + [Id(p), ARROW] == [Id(p), ARROW];
  }

  lemma NotWritten(o: seq<Token>)
    requires Written(o) && AllWell([NOT]) && Unsigned([NOT])
    ensures Written([NOT] + o)
  {
    Bracketed([], [NOT], o, []);
    assert [] + [NOT] == [NOT];
  }

  lemma BracesWritten(fields: seq<Token>)
    requires Written(fields) && (fields == [] || !Negative(fields[0]))
    ensures Written([LBRACE] + fields + [RBRACE])
  {
    hide AllWell, WellSpelled, OperandExpected, Negative;
    MarkWell(LBRACE);
    MarkWell(RBRACE);
    var ts := [LBRACE] + fields;
    assert AllWell(ts) by {
      hide *;
      AllWellJoin([LBRACE], fields);
    }
    forall i | 0 <= i < |ts| && Negative(ts[i]) ensures OperandBefore(ts, i, true) {
      if i > 0 {
        assert OperandBefore(fields, i - 1, true);
      }
    }
    ThenPlain(ts, [RBRACE]);
  }

  lemma AllWellJoin(a: seq<Token>, b: seq<Token>)
    ensures AllWell(a + b) <==> AllWell(a) && AllWell(b)
  {
    assert forall t :: t in a || t in b ==> t in a + b;
  }

  lemma CallWritten(o: seq<Token>, open: seq<Token>, args: seq<Token>)
    requires Written(o) && AllWell(open) && Unsigned(open) && Written(args)
    requires open != [] && open[|open| - 1] == LPAREN
    ensures Written(o + open + args + [RPAREN])
  {
    MarkWell(RPAREN);
    Bracketed(o, open, args, [RPAREN]);
  }

  lemma IndexWritten(o: seq<Token>, i: seq<Token>)
    requires Written(o) && Written(i)
    ensures Written(o + [LBRACKET] + i + [RBRACKET])
  {
    MarkWell(LBRACKET);
    MarkWell(RBRACKET);
    Bracketed(o, [LBRACKET], i, [RBRACKET]);
  }

  lemma BinaryWritten(t: Token, l: seq<Token>, r: seq<Token>)
    requires IsBinary(t.kind) && WellSpelled(t) && Written(l) && Written(r)
    ensures Written(l + [t] + r)
  {
    OneWell(t);
    Bracketed(l, [t], r, []);
  }

  lemma TernaryWritten(x: seq<Token>, t: seq<Token>, e: seq<Token>)
    requires Written(x) && Written(t) && Written(e)
    ensures Written(x + [QUESTION] + t + [COLON] + e)
  {
    MarkWell(QUESTION);
    MarkWell(COLON);
    Bracketed(x, [QUESTION], t, [COLON]);
    ThenOperand(x + [QUESTION] + t + [COLON], e);
  }

  lemma {:induction false} ListWritten(cs: seq<Cst>)
    requires AllSpelled(cs)
    ensures Written(FlattenList(cs))
    decreases cs, 1
  {
    hide AllWell, SignsPlaced, Unsigned, OperandExpected, Spelled;
    if cs == [] {
      NothingWritten();
    } else {
      TreeWritten(cs[0]);
      if |cs| > 1 {
        ListWritten(cs[1..]);
        CommaWritten(Flatten(cs[0]), FlattenList(cs[1..]));
      }
    }
  }

  lemma NothingWritten()
    ensures Written([])
  {
  }

  lemma CommaWritten(a: seq<Token>, b: seq<Token>)
    requires Written(a) && Written(b)
    ensures Written(a + [COMMA] + b)
  {
    MarkWell(COMMA);
    Bracketed(a, [COMMA], b, []);
  }

  lemma {:induction false} FieldsWritten(ks: seq<Token>, vs: seq<Cst>)
    requires |ks| == |vs| && AllSpelled(vs)
    requires forall t :: t in ks ==> (t.kind == Str || t.kind == Ident) && WellSpelled(t)
    ensures Written(FlattenFields(ks, vs)) && (ks != [] ==> FlattenFields(ks, vs) != [] && !Negative(FlattenFields(ks, vs)[0]))
    ensures ks == [] ==> FlattenFields(ks, vs) == []
    decreases vs, 1
  {
    hide AllWell, SignsPlaced, Unsigned, OperandExpected, Spelled;
    if ks == [] {
      NothingWritten();
    } else {
      assert ks[0] in ks;
      TreeWritten(vs[0]);
      KeyWritten(ks[0], Flatten(vs[0]));
      if |vs| > 1 {
        FieldsWritten(ks[1..], vs[1..]);
        CommaWritten([ks[0], COLON] + Flatten(vs[0]), FlattenFields(ks[1..], vs[1..]));
      }
    }
  }

  lemma KeyWritten(k: Token, value: seq<Token>)
    requires (k.kind == Str || k.kind == Ident) && WellSpelled(k) && Written(value)
    ensures Written([k, COLON] + value)
  {
    PunctuationWell(COLON);
    Bracketed([], [k, COLON], value, []);
    assert [] + [k, COLON] == [k, COLON];
  }
}
