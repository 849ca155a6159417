/**
 * The grammar of the parser, stated without parsing: which concrete trees are well formed at a precedence
 * level before a given next token. The parser accepts exactly their token sequences, and builds exactly them.
 */
module Grammar {
  import opened Options
  import opened Tokens
  import opened Syntax

  predicate IsLoop(level: nat) {
    level == 0 || 2 <= level <= 8 || level == 10
  }

  /** c can be what a level has built when `next` comes, perhaps to go on with it. */
  predicate Fits(c: Cst, level: nat, next: Kind)
    requires level <= 11
    decreases c, 12 - level, 0
  {
    if level == 11 then FitsPrimary(c, next)
    else if level == 10 then
      match c
      case CDot(o, _) => Fits(o, 10, Dot) && next != LParen
      case CMethod(o, _, args) => Fits(o, 10, Dot) && FitsList(args, RParen)
      case COptional(o, _) => Fits(o, 10, OptionalChain)
      case CIndex(o, i) => Fits(o, 10, LBracket) && Full(i, 0, RBracket)
      case CCall(o, args) => Fits(o, 10, LParen) && FitsList(args, RParen)
      case _ => Full(c, 11, next)
    else if level == 9 then
      if c.CNot? then Full(c.operand, 9, next) else Full(c, 10, next)
    else if level == 1 then
      if c.CTernary? then Full(c.condition, 2, Question) && Full(c.thn, 0, Colon) && Full(c.els, 0, next)
      else Full(c, 2, next) && next != Question
    else if level == 0 then
      match c
      case CPipe(v, _, args) => Fits(v, 0, Pipe) && FitsList(args, RParen)
      case CPipeBare(v, _) => Fits(v, 0, Pipe) && next != LParen
      case _ => Full(c, 1, next)
    else
      if c.CBinary? && Level(c.tok.kind) == level then Fits(c.left, level, c.tok.kind) && Full(c.right, level + 1, next)
      else Full(c, level + 1, next)
  }

  /** ... and `next` does not continue it at that level. */
  predicate Full(c: Cst, level: nat, next: Kind)
    requires level <= 11
    decreases c, 12 - level, 1
  {
    Fits(c, level, next) && (IsLoop(level) ==> Level(next) != level)
  }

  predicate FitsPrimary(c: Cst, next: Kind)
    decreases c, 0, 0
  {
    match c
    case CToken(t) => if t.kind == Ident then next != Arrow else LiteralOf(t).Some?
    case CParen(inner) => Full(inner, 0, RParen)
    case CLambda(_, body) => Full(body, 0, next)
    case CArray(es) => FitsList(es, RBracket)
    case CObject(ks, vs) => |ks| == |vs| && FitsFields(ks, vs)
    case _ => false
  }

  predicate FitsList(cs: seq<Cst>, closer: Kind)
    decreases cs, 14, 0
  {
    cs == [] || (Full(cs[0], 0, if |cs| == 1 then closer else Comma) && FitsList(cs[1..], closer))
  }

  predicate FitsFields(ks: seq<Token>, vs: seq<Cst>)
    requires |ks| == |vs|
    decreases vs, 14, 0
  {
    ks == [] ||
    (&& (ks[0].kind == Ident || ks[0].kind == Str)
     && Full(vs[0], 0, if |vs| == 1 then RBrace else Comma) && FitsFields(ks[1..], vs[1..]))
  }

  // ---------- The text of a tree before what follows it ----------

  lemma TextAfter(a: seq<Token>, b: seq<Token>, c: seq<Token>)
    ensures a + b + c == a + (b + c)
  {
  }

  lemma TernaryText(x: Cst, t: Cst, e: Cst, rest: seq<Token>)
    ensures Flatten(CTernary(x, t, e)) + rest ==
            Flatten(x) + ([QUESTION] + (Flatten(t) + ([COLON] + (Flatten(e) + rest))))
  {
    var fx, ft, fe := Flatten(x), Flatten(t), Flatten(e);
    TextAfter(fx + [QUESTION] + ft + [COLON], fe, rest);
    TextAfter(fx + [QUESTION] + ft, [COLON], fe + rest);
    TextAfter(fx + [QUESTION], ft, [COLON] + (fe + rest));
    TextAfter(fx, [QUESTION], ft + ([COLON] + (fe + rest)));
  }

  lemma BinaryText(t: Token, l: Cst, r: Cst, rest: seq<Token>)
    ensures Flatten(CBinary(t, l, r)) + rest == Flatten(l) + ([t] + (Flatten(r) + rest))
  {
    TextAfter(Flatten(l) + [t], Flatten(r), rest);
    TextAfter(Flatten(l), [t], Flatten(r) + rest);
  }

  lemma BareText(o: Cst, name: string, rest: seq<Token>)
    ensures Flatten(CDot(o, name)) + rest == Flatten(o) + ([DOT, Id(name)] + rest)
    ensures Flatten(CPipeBare(o, name)) + rest == Flatten(o) + ([PIPE, Id(name)] + rest)
    ensures Flatten(COptional(o, name)) + rest == Flatten(o) + ([OPTIONAL, Id(name)] + rest)
  {
    TextAfter(Flatten(o), [DOT, Id(name)], rest);
    TextAfter(Flatten(o), [PIPE, Id(name)], rest);
    TextAfter(Flatten(o), [OPTIONAL, Id(name)], rest);
  }

  lemma BracketText(o: seq<Token>, open: seq<Token>, inner: seq<Token>, close: seq<Token>, rest: seq<Token>)
    ensures o + open + inner + close + rest == o + (open + (inner + (close + rest)))
  {
    TextAfter(o + open + inner, close, rest);
    TextAfter(o + open, inner, close + rest);
    TextAfter(o, open, inner + (close + rest));
  }

  lemma NamedText(o: Cst, name: string, args: seq<Cst>, rest: seq<Token>)
    ensures Flatten(CMethod(o, name, args)) + rest ==
            Flatten(o) + ([DOT, Id(name), LPAREN] + (FlattenList(args) + ([RPAREN] + rest)))
    ensures Flatten(CPipe(o, name, args)) + rest ==
            Flatten(o) + ([PIPE, Id(name), LPAREN] + (FlattenList(args) + ([RPAREN] + rest)))
  {
    BracketText(Flatten(o), [DOT, Id(name), LPAREN], FlattenList(args), [RPAREN], rest);
    BracketText(Flatten(o), [PIPE, Id(name), LPAREN], FlattenList(args), [RPAREN], rest);
  }

  // ---------- Completeness: well-formed trees are parsed back ----------

  /** The level at which a tree's root is built. */
  function OwnLevel(c: Cst): nat {
    match c
    case CPipe(_, _, _) => 0
    case CPipeBare(_, _) => 0
    case CTernary(_, _, _) => 1
    case CBinary(t, _, _) => if IsBinary(t.kind) then Level(t.kind) else 12
    case CNot(_) => 9
    case CDot(_, _) => 10
    case CMethod(_, _, _) => 10
    case COptional(_, _) => 10
    case CIndex(_, _) => 10
    case CCall(_, _) => 10
    case _ => 11
  }

  /** Above its own level, a tree is what the next level returned. */
  lemma FitsInner(c: Cst, level: nat, next: Kind)
    requires level <= 11 && Fits(c, level, next) && OwnLevel(c) != level
    ensures level < 11 && Full(c, level + 1, next)
    ensures level == 1 ==> next != Question
  {
  }

  /** An expression starts with an operand or, at unary level and below, with `!`. */
  lemma {:induction false} FirstToken(c: Cst, level: nat, next: Kind)
    requires level <= 11 && Fits(c, level, next)
    ensures Flatten(c) != []
    ensures Flatten(c)[0].kind in {Ident, Str, Int, Float, Bool, NullLit, LParen, LBracket, LBrace, Not}
    ensures level >= 10 ==> Flatten(c)[0].kind != Not
    decreases c, 12 - level
  {
    if OwnLevel(c) != level {
      FitsInner(c, level, next);
      FirstToken(c, level + 1, next);
    } else {
      match c
      case CToken(t) =>
      case CParen(inner) =>
      case CLambda(_, _) =>
      case CArray(_) =>
      case CObject(_, _) =>
      case CNot(_) =>
      case CDot(o, _) => FirstToken(o, 10, Dot);
      case CMethod(o, _, _) => FirstToken(o, 10, Dot);
      case COptional(o, _) => FirstToken(o, 10, OptionalChain);
      case CIndex(o, _) => FirstToken(o, 10, LBracket);
      case CCall(o, _) => FirstToken(o, 10, LParen);
      case CBinary(t, l, _) => FirstToken(l, level, t.kind);
      case CTernary(x, _, _) => FirstToken(x, 2, Question);
      case CPipe(v, _, _) => FirstToken(v, 0, Pipe);
      case CPipeBare(v, _) => FirstToken(v, 0, Pipe);
    }
  }

  /** Parsing a well-formed tree's tokens at a loop level reaches the loop with that tree in hand. */
  lemma {:induction false} ParseFits(c: Cst, level: nat, rest: seq<Token>)
    requires level <= 11 && IsLoop(level) && Fits(c, level, Peek(rest))
    ensures Parse(level, Flatten(c) + rest) == Loop(level, c, rest)
    decreases c, 12 - level, 0
  {
    if OwnLevel(c) != level {
      FitsInner(c, level, Peek(rest));
      ParseFull(c, level + 1, rest);
    } else if 2 <= level <= 8 {
      ParseBinary(c, level, rest);
    } else if level == 0 {
      ParsePipe(c, rest);
    } else {
      ParsePostfix(c, rest);
    }
  }

  lemma {:induction false} ParseBinary(c: Cst, level: nat, rest: seq<Token>)
    requires 2 <= level <= 8 && OwnLevel(c) == level && c.CBinary? && Fits(c, level, Peek(rest))
    ensures Parse(level, Flatten(c) + rest) == Loop(level, c, rest)
    decreases c, 0, 0
  {
    var tail := Flatten(c.right) + rest;
    BinaryText(c.tok, c.left, c.right, rest);
    ParseFits(c.left, level, [c.tok] + tail);
    assert ([c.tok] + tail)[1..] == tail;
    ParseFull(c.right, level + 1, rest);
  }

  lemma LoopTurn(level: nat, acc: Cst, ts: seq<Token>, c: Cst, rest: seq<Token>)
    requires IsLoop(level) && Level(Peek(ts)) == level && Extend(level, acc, ts) == Some((c, rest))
    ensures Loop(level, acc, ts) == Loop(level, c, rest)
  {
  }

  /** `.name` or `| name` followed by something else than arguments. */
  lemma ExtendBare(level: nat, acc: Cst, op: Token, name: string, rest: seq<Token>)
    requires (level == 0 && op == PIPE) || (level == 10 && op == DOT)
    requires Peek(rest) != LParen
    ensures Extend(level, acc, [op, Id(name)] + rest) ==
            Some((if level == 0 then CPipeBare(acc, name) else CDot(acc, name), rest))
  {
    var ts := [op, Id(name)] + rest;
    assert ts[1..] == [Id(name)] + rest && ts[2..] == rest;
  }

  /** `.name(...)` or `| name(...)`. */
  lemma {:induction false} ExtendWithArgs(level: nat, acc: Cst, op: Token, name: string, args: seq<Cst>, rest: seq<Token>)
    requires (level == 0 && op == PIPE) || (level == 10 && op == DOT)
    requires FitsList(args, RParen)
    ensures Extend(level, acc, [op, Id(name), LPAREN] + (FlattenList(args) + ([RPAREN] + rest))) ==
            Some((if level == 0 then CPipe(acc, name, args) else CMethod(acc, name, args), rest))
    decreases args, 15, 1
  {
    var tail := FlattenList(args) + ([RPAREN] + rest);
    var ts := [op, Id(name), LPAREN] + tail;
    assert ts[1..] == [Id(name), LPAREN] + tail && ts[2..] == [LPAREN] + tail && ts[3..] == tail;
    ParseArgsBack(args, rest);
  }

  lemma {:induction false} ExtendCall(acc: Cst, args: seq<Cst>, rest: seq<Token>)
    requires FitsList(args, RParen)
    ensures Extend(10, acc, [LPAREN] + (FlattenList(args) + ([RPAREN] + rest))) == Some((CCall(acc, args), rest))
    decreases args, 15, 1
  {
    var tail := FlattenList(args) + ([RPAREN] + rest);
    assert ([LPAREN] + tail)[1..] == tail;
    ParseArgsBack(args, rest);
  }

  lemma {:induction false} ExtendIndex(acc: Cst, i: Cst, rest: seq<Token>)
    requires Full(i, 0, RBracket)
    ensures Extend(10, acc, [LBRACKET] + (Flatten(i) + ([RBRACKET] + rest))) == Some((CIndex(acc, i), rest))
    decreases i, 15, 1
  {
    var tail := Flatten(i) + ([RBRACKET] + rest);
    assert ([LBRACKET] + tail)[1..] == tail && ([RBRACKET] + rest)[1..] == rest;
    ParseFull(i, 0, [RBRACKET] + rest);
  }

  lemma ExtendOptional(acc: Cst, name: string, rest: seq<Token>)
    ensures Extend(10, acc, [OPTIONAL, Id(name)] + rest) == Some((COptional(acc, name), rest))
  {
    var ts := [OPTIONAL, Id(name)] + rest;
    assert ts[1..] == [Id(name)] + rest && ts[2..] == rest;
  }

  lemma {:induction false} ParsePipe(c: Cst, rest: seq<Token>)
    requires OwnLevel(c) == 0 && Fits(c, 0, Peek(rest))
    ensures Parse(0, Flatten(c) + rest) == Loop(0, c, rest)
    decreases c, 0, 0
  {
    hide Loop, Parse, Extend, Flatten;
    var after;
    if c.CPipeBare? {
      after := [PIPE, Id(c.filter)] + rest;
      ExtendBare(0, c.value, PIPE, c.filter, rest);
      BareText(c.value, c.filter, rest);
    } else {
      after := [PIPE, Id(c.filter), LPAREN] + (FlattenList(c.args) + ([RPAREN] + rest));
      ExtendWithArgs(0, c.value, PIPE, c.filter, c.args, rest);
      NamedText(c.value, c.filter, c.args, rest);
    }
    ParseFits(c.value, 0, after);
    LoopTurn(0, c.value, after, c, rest);
  }

  lemma {:induction false} ParsePostfix(c: Cst, rest: seq<Token>)
    requires OwnLevel(c) == 10 && Fits(c, 10, Peek(rest))
    ensures Parse(10, Flatten(c) + rest) == Loop(10, c, rest)
    decreases c, 0, 0
  {
    hide Loop, Parse, Extend, Flatten, FlattenList;
    var after;
    match c {
      case CDot(o, f) =>
        after := [DOT, Id(f)] + rest;
        ExtendBare(10, o, DOT, f, rest);
        BareText(o, f, rest);
      case CMethod(o, f, args) =>
        after := [DOT, Id(f), LPAREN] + (FlattenList(args) + ([RPAREN] + rest));
        ExtendWithArgs(10, o, DOT, f, args, rest);
        NamedText(o, f, args, rest);
      case COptional(o, f) =>
        after := [OPTIONAL, Id(f)] + rest;
        ExtendOptional(o, f, rest);
        BareText(o, f, rest);
      case CIndex(o, i) =>
        after := [LBRACKET] + (Flatten(i) + ([RBRACKET] + rest));
        ExtendIndex(o, i, rest);
        IndexText(o, i, rest);
      case CCall(o, args) =>
        after := [LPAREN] + (FlattenList(args) + ([RPAREN] + rest));
        ExtendCall(o, args, rest);
        CallText(o, args, rest);
    }
    ParsePostfixLoop(c, c.obj, after, rest);
  }

  lemma IndexText(o: Cst, i: Cst, rest: seq<Token>)
    ensures Flatten(CIndex(o, i)) + rest == Flatten(o) + ([LBRACKET] + (Flatten(i) + ([RBRACKET] + rest)))
  {
    BracketText(Flatten(o), [LBRACKET], Flatten(i), [RBRACKET], rest);
  }

  lemma CallText(o: Cst, args: seq<Cst>, rest: seq<Token>)
    ensures Flatten(CCall(o, args)) + rest == Flatten(o) + ([LPAREN] + (FlattenList(args) + ([RPAREN] + rest)))
  {
    BracketText(Flatten(o), [LPAREN], FlattenList(args), [RPAREN], rest);
  }

  lemma {:induction false} ParsePostfixLoop(c: Cst, o: Cst, after: seq<Token>, rest: seq<Token>)
    requires Flatten(c) + rest == Flatten(o) + after && after != [] && Level(after[0].kind) == 10
    requires Fits(o, 10, after[0].kind) && Extend(10, o, after) == Some((c, rest))
    ensures Parse(10, Flatten(c) + rest) == Loop(10, c, rest)
    decreases o, 15, 2
  {
    ParseFits(o, 10, after);
    LoopTurn(10, o, after, c, rest);
  }

  lemma {:induction false} ParseArgsBack(args: seq<Cst>, rest: seq<Token>)
    requires FitsList(args, RParen)
    ensures ParseArgs(FlattenList(args) + ([RPAREN] + rest)) == Some((args, rest))
    decreases args, 15, 0
  {
    var after := [RPAREN] + rest;
    assert after[1..] == rest;
    if args == [] {
      assert FlattenList(args) + after == after;
    } else {
      ParseListBack(args, after);
      ListStart(args, RParen);
    }
  }

  lemma ListStart(cs: seq<Cst>, closer: Kind)
    requires cs != [] && FitsList(cs, closer)
    ensures FlattenList(cs) != [] && FlattenList(cs)[0].kind !in {RParen, RBracket}
  {
    FirstToken(cs[0], 0, if |cs| == 1 then closer else Comma);
  }

  lemma {:induction false} ParseListBack(cs: seq<Cst>, rest: seq<Token>)
    requires cs != [] && FitsList(cs, Peek(rest)) && Peek(rest) != Comma
    ensures ParseList(FlattenList(cs) + rest) == Some((cs, rest))
    decreases cs, 14, 0
  {
    hide Parse, Full;
    if |cs| == 1 {
      ParseFull(cs[0], 0, rest);
      assert [cs[0]] == cs;
    } else {
      var tail := FlattenList(cs[1..]) + rest;
      assert FlattenList(cs) + rest == Flatten(cs[0]) + ([COMMA] + tail);
      assert ([COMMA] + tail)[1..] == tail;
      ParseFull(cs[0], 0, [COMMA] + tail);
      ParseListBack(cs[1..], rest);
      assert [cs[0]] + cs[1..] == cs;
    }
  }

  lemma {:induction false} ParseFieldsBack(ks: seq<Token>, vs: seq<Cst>, rest: seq<Token>)
    requires |ks| == |vs| > 0 && FitsFields(ks, vs) && Peek(rest) == RBrace
    ensures ParseFields(FlattenFields(ks, vs) + rest) == Some((ks, vs, rest))
    decreases vs, 14, 0
  {
    hide Parse, Full, Flatten, FlattenFields;
    if |vs| == 1 {
      ParseFull(vs[0], 0, rest);
      LastFieldBack(ks[0], vs[0], rest);
      assert [vs[0]] == vs && [ks[0]] == ks;
    } else {
      var tail := FlattenFields(ks[1..], vs[1..]) + rest;
      ParseFull(vs[0], 0, [COMMA] + tail);
      ParseFieldsBack(ks[1..], vs[1..], rest);
      FirstFieldBack(ks, vs, rest);
    }
  }

  lemma LastFieldBack(k: Token, v: Cst, rest: seq<Token>)
    requires (k.kind == Ident || k.kind == Str) && Peek(rest) == RBrace && Parse(0, Flatten(v) + rest) == Some((v, rest))
    ensures ParseFields(FlattenFields([k], [v]) + rest) == Some(([k], [v], rest))
  {
    hide Parse, Flatten;
    var ts := FlattenFields([k], [v]) + rest;
    assert ts == [k, COLON] + (Flatten(v) + rest);
  }

  lemma FirstFieldBack(ks: seq<Token>, vs: seq<Cst>, rest: seq<Token>)
    requires |ks| == |vs| > 1 && (ks[0].kind == Ident || ks[0].kind == Str)
    requires var tail := FlattenFields(ks[1..], vs[1..]) + rest;
             && ParseFields(tail) == Some((ks[1..], vs[1..], rest))
             && Parse(0, Flatten(vs[0]) + ([COMMA] + tail)) == Some((vs[0], [COMMA] + tail))
    ensures ParseFields(FlattenFields(ks, vs) + rest) == Some((ks, vs, rest))
  {
    hide Parse, Flatten;
    var tail := FlattenFields(ks[1..], vs[1..]) + rest;
    var ts := FlattenFields(ks, vs) + rest;
    assert ts == [ks[0], COLON] + (Flatten(vs[0]) + ([COMMA] + tail));
    assert ([COMMA] + tail)[1..] == tail;
    assert [vs[0]] + vs[1..] == vs && [ks[0]] + ks[1..] == ks;
  }

  /** A well-formed tree that the next token does not continue is parsed back, and nothing beyond it is read. */
  lemma {:induction false} ParseFull(c: Cst, level: nat, rest: seq<Token>)
    requires level <= 11 && Full(c, level, Peek(rest))
    ensures Parse(level, Flatten(c) + rest) == Some((c, rest))
    decreases c, 12 - level, 1
  {
    hide Parse, Flatten, Fits;
    FullIs(c, level, rest);
    if IsLoop(level) {
      ParseFits(c, level, rest);
      LoopEnds(c, level, rest);
    } else if OwnLevel(c) != level {
      FitsInner(c, level, Peek(rest));
      ParseFull(c, level + 1, rest);
      ParseAbove(c, level, rest);
    } else if level == 9 {
      OperandFull(c, Peek(rest));
      ParseFull(c.operand, 9, rest);
      ParseNot(c, rest);
    } else if level == 1 {
      ParseTernary(c, rest);
    } else {
      PrimaryPart(c, Peek(rest));
      ParsePrimaryBack(c, rest);
      PrimaryLevel(Flatten(c) + rest);
    }
  }

  lemma FullIs(c: Cst, level: nat, rest: seq<Token>)
    requires level <= 11 && Full(c, level, Peek(rest))
    ensures Fits(c, level, Peek(rest)) && (IsLoop(level) ==> Level(Peek(rest)) != level)
  {
  }

  lemma LoopEnds(c: Cst, level: nat, rest: seq<Token>)
    requires IsLoop(level) && Level(Peek(rest)) != level
    ensures Loop(level, c, rest) == Some((c, rest))
  {
  }

  /** What the next level returned, this one returns too. */
  lemma ParseAbove(c: Cst, level: nat, rest: seq<Token>)
    requires level < 11 && !IsLoop(level) && Parse(level + 1, Flatten(c) + rest) == Some((c, rest))
    requires Fits(c, level + 1, Peek(rest)) && (level == 1 ==> Peek(rest) != Question)
    ensures Parse(level, Flatten(c) + rest) == Some((c, rest))
  {
    hide Flatten, Fits, Loop;
    if level == 9 {
      FirstToken(c, 10, Peek(rest));
    }
  }

  lemma OperandFull(c: Cst, next: Kind)
    requires OwnLevel(c) == 9 && Fits(c, 9, next)
    ensures c.CNot? && Full(c.operand, 9, next)
  {
  }

  lemma ParseNot(c: Cst, rest: seq<Token>)
    requires c.CNot? && Parse(9, Flatten(c.operand) + rest) == Some((c.operand, rest))
    ensures Parse(9, Flatten(c) + rest) == Some((c, rest))
  {
    var ts := Flatten(c) + rest;
    assert ts == [NOT] + (Flatten(c.operand) + rest);
    assert ts[1..] == Flatten(c.operand) + rest;
  }

  lemma PrimaryPart(c: Cst, next: Kind)
    requires Fits(c, 11, next)
    ensures FitsPrimary(c, next)
  {
  }

  lemma PrimaryLevel(ts: seq<Token>)
    ensures Parse(11, ts) == ParsePrimary(ts)
  {
  }

  lemma {:induction false} ParseTernary(c: Cst, rest: seq<Token>)
    requires c.CTernary? && Fits(c, 1, Peek(rest))
    ensures Parse(1, Flatten(c) + rest) == Some((c, rest))
    decreases c, 0, 0
  {
    var t2 := Flatten(c.els) + rest;
    var t1 := Flatten(c.thn) + ([COLON] + t2);
    TernaryText(c.condition, c.thn, c.els, rest);
    ParseFull(c.condition, 2, [QUESTION] + t1);
    assert ([QUESTION] + t1)[1..] == t1 && ([COLON] + t2)[1..] == t2;
    ParseFull(c.thn, 0, [COLON] + t2);
    ParseFull(c.els, 0, rest);
  }

  lemma {:induction false} ParsePrimaryBack(c: Cst, rest: seq<Token>)
    requires OwnLevel(c) == 11 && FitsPrimary(c, Peek(rest))
    ensures ParsePrimary(Flatten(c) + rest) == Some((c, rest))
    decreases c, 0, 0
  {
    hide Parse, ParseList, ParseFields;
    var ts := Flatten(c) + rest;
    match c
    case CToken(t) =>
      assert ts[1..] == rest;
    case CParen(inner) =>
      var after := [RPAREN] + rest;
      TextAfter([LPAREN] + Flatten(inner), [RPAREN], rest);
      TextAfter([LPAREN], Flatten(inner), after);
      assert ts[1..] == Flatten(inner) + after && after[1..] == rest;
      ParseFull(inner, 0, after);
    case CLambda(param, body) =>
      TextAfter([Id(param), ARROW], Flatten(body), rest);
      assert ts[1] == ARROW && ts[2..] == Flatten(body) + rest;
      ParseFull(body, 0, rest);
    case CArray(es) =>
      ParseArrayBack(es, rest);
    case CObject(ks, vs) =>
      ParseObjectBack(ks, vs, rest);
  }

  lemma {:induction false} ParseArrayBack(es: seq<Cst>, rest: seq<Token>)
    requires FitsList(es, RBracket)
    ensures ParsePrimary(Flatten(CArray(es)) + rest) == Some((CArray(es), rest))
    decreases es, 15, 0
  {
    hide Parse, ParseList;
    var after := [RBRACKET] + rest;
    assert after[1..] == rest;
    var ts := [LBRACKET] + (FlattenList(es) + after);
    TextAfter([LBRACKET] + FlattenList(es), [RBRACKET], rest);
    TextAfter([LBRACKET], FlattenList(es), after);
    assert ts[1..] == FlattenList(es) + after;
    if es == [] {
      assert ts[1..] == after && ts[2..] == rest;
    } else {
      ListStart(es, RBracket);
      ParseListBack(es, after);
    }
  }

  lemma {:induction false} ParseObjectBack(ks: seq<Token>, vs: seq<Cst>, rest: seq<Token>)
    requires |ks| == |vs| && FitsFields(ks, vs)
    ensures ParsePrimary(Flatten(CObject(ks, vs)) + rest) == Some((CObject(ks, vs), rest))
    decreases vs, 15, 0
  {
    hide Parse, ParseFields;
    var after := [RBRACE] + rest;
    assert after[1..] == rest;
    var ts := [LBRACE] + (FlattenFields(ks, vs) + after);
    TextAfter([LBRACE] + FlattenFields(ks, vs), [RBRACE], rest);
    TextAfter([LBRACE], FlattenFields(ks, vs), after);
    assert ts[1..] == FlattenFields(ks, vs) + after;
    if vs == [] {
      assert ts[1..] == after && ts[2..] == rest;
    } else {
      ParseFieldsBack(ks, vs, after);
    }
  }
}
