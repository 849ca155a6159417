/**
 * The converse of completeness: whatever the parser accepts is a well-formed tree, and the tokens it consumed are exactly
 * that tree's. Proved function by function, along the parser's own recursion: levels, loops, arguments, primaries.
 */
module Recognition {
  import opened Options
  import opened Tokens
  import opened Spelling
  import opened Syntax
  import opened Grammar

  /** Tokens whose text their kind decides. */
  function Punctuation(k: Kind): Option<Token> {
    match k
    case Dot => Some(DOT)
    case OptionalChain => Some(OPTIONAL)
    case LParen => Some(LPAREN)
    case RParen => Some(RPAREN)
    case LBracket => Some(LBRACKET)
    case RBracket => Some(RBRACKET)
    case LBrace => Some(LBRACE)
    case RBrace => Some(RBRACE)
    case Comma => Some(COMMA)
    case Colon => Some(COLON)
    case Pipe => Some(PIPE)
    case Arrow => Some(ARROW)
    case Not => Some(NOT)
    case Question => Some(QUESTION)
    case _ => None
  }

  predicate Canonical(ts: seq<Token>) {
    forall t :: t in ts && Punctuation(t.kind).Some? ==> t == Punctuation(t.kind).value
  }

  /** Every token of the lexer has the text of its kind. */
  lemma WellSpelledIsCanonical(ts: seq<Token>)
    requires forall t :: t in ts ==> WellSpelled(t) || t.kind == EOF
    ensures Canonical(ts)
  {
    forall t | t in ts && Punctuation(t.kind).Some? ensures t == Punctuation(t.kind).value {
      OnlySpelling(t);
    }
  }

  lemma OnlySpelling(t: Token)
    requires WellSpelled(t) && Punctuation(t.kind).Some?
    ensures t == Punctuation(t.kind).value
  {
    if |t.value| == 2 {
      assert t.value == [t.value[0], t.value[1]];
    } else {
      assert t.value == [t.value[0]];
    }
  }

  // ---------- Levels ----------

  lemma {:induction false} FitsAbove(c: Cst, level: nat, next: Kind)
    requires level <= 11 && Fits(c, level, next)
    ensures level <= OwnLevel(c) <= 11
    decreases 12 - level
  {
    if OwnLevel(c) != level {
      FitsInner(c, level, next);
      FitsAbove(c, level + 1, next);
    }
  }

  lemma FullFits(c: Cst, level: nat, next: Kind)
    requires level <= 11 && Full(c, level, next)
    ensures Fits(c, level, next)
  {
  }

  /** What a level returned, the level below may start with. */
  lemma FitsBelow(c: Cst, level: nat, next: Kind)
    requires level < 11 && Full(c, level + 1, next) && (level == 1 ==> next != Question)
    ensures Fits(c, level, next)
  {
    hide Full, FitsPrimary, FitsList;
    FullFits(c, level + 1, next);
    FitsAbove(c, level + 1, next);
  }

  // ---------- Soundness ----------

  /** The tree that was built from `from` tokens, leaving `rest`. */
  predicate Consumed(from: seq<Token>, text: seq<Token>, rest: seq<Token>) {
    from == text + rest && Canonical(rest)
  }

  lemma Drop(ts: seq<Token>, n: nat)
    requires Canonical(ts) && n < |ts|
    ensures Punctuation(ts[n].kind).Some? ==> ts[n] == Punctuation(ts[n].kind).value
    ensures Canonical(ts[n..]) && Canonical(ts[n + 1..])
  {
    assert ts[n] in ts;
  }

  lemma {:induction false} ParseSound(level: nat, ts: seq<Token>)
    requires level <= 11 && Canonical(ts) && Parse(level, ts).Some?
    ensures var (c, rest) := Parse(level, ts).value; Consumed(ts, Flatten(c), rest) && Full(c, level, Peek(rest))
    decreases |ts|, 12 - level
  {
    hide Canonical, Loop, ParseTernaryTail, ParsePrimary;
    if level == 11 {
      PrimarySound(ts);
    } else if level == 9 && Peek(ts) == Not {
      NotSound(ts);
    } else {
      ParseSound(level + 1, ts);
      var (c, rest) := Parse(level + 1, ts).value;
      if level == 9 {
        FitsBelow(c, level, Peek(rest));
      } else if level == 1 {
        TernarySound(c, rest);
      } else {
        FitsBelow(c, level, Peek(rest));
        LoopSound(level, c, rest);
      }
    }
  }

  lemma {:induction false} NotSound(ts: seq<Token>)
    requires Canonical(ts) && Peek(ts) == Not && Parse(9, ts).Some?
    ensures var (c, rest) := Parse(9, ts).value; Consumed(ts, Flatten(c), rest) && Full(c, 9, Peek(rest))
    decreases |ts|, 0
  {
    hide Canonical, ParsePrimary, Loop;
    Drop(ts, 0);
    ParseSound(9, ts[1..]);
    var (c, rest) := Parse(9, ts[1..]).value;
    assert ts == [NOT] + (Flatten(c) + rest);
  }

  lemma TernaryFull(x: Cst, thn: Cst, els: Cst, next: Kind)
    requires Full(x, 2, Question) && Full(thn, 0, Colon) && Full(els, 0, next)
    ensures Full(CTernary(x, thn, els), 1, next)
  {
  }

  lemma NoLoopAtOne(x: Cst, next: Kind)
    requires Fits(x, 1, next)
    ensures Full(x, 1, next)
  {
    hide Fits;
  }

  lemma {:induction false} TernarySound(x: Cst, ts: seq<Token>)
    requires Canonical(ts) && Full(x, 2, Peek(ts)) && ParseTernaryTail(x, ts).Some?
    ensures var (c, rest) := ParseTernaryTail(x, ts).value;
            Consumed(Flatten(x) + ts, Flatten(c), rest) && Full(c, 1, Peek(rest))
    decreases |ts|, 20
  {
    hide Canonical, Parse, Flatten, Level, Full, Fits;
    if Peek(ts) != Question {
      FitsBelow(x, 1, Peek(ts));
      NoLoopAtOne(x, Peek(ts));
    } else {
      Drop(ts, 0);
      ParseSound(0, ts[1..]);
      var (thn, r1) := Parse(0, ts[1..]).value;
      Drop(r1, 0);
      ParseSound(0, r1[1..]);
      var (els, r2) := Parse(0, r1[1..]).value;
      assert r1 == [COLON] + r1[1..] && ts == [QUESTION] + ts[1..];
      TernaryText(x, thn, els, r2);
      TernaryFull(x, thn, els, Peek(r2));
    }
  }

  lemma {:induction false} LoopSound(level: nat, acc: Cst, ts: seq<Token>)
    requires IsLoop(level) && Canonical(ts) && Fits(acc, level, Peek(ts)) && Loop(level, acc, ts).Some?
    ensures var (c, rest) := Loop(level, acc, ts).value;
            Consumed(Flatten(acc) + ts, Flatten(c), rest) && Full(c, level, Peek(rest))
    decreases |ts|, 20
  {
    hide Canonical, Extend;
    if Level(Peek(ts)) == level {
      ExtendSound(level, acc, ts);
      var (c, rest) := Extend(level, acc, ts).value;
      LoopSound(level, c, rest);
    }
  }

  lemma {:induction false} ExtendSound(level: nat, acc: Cst, ts: seq<Token>)
    requires IsLoop(level) && Canonical(ts) && Fits(acc, level, Peek(ts))
    requires Level(Peek(ts)) == level && Extend(level, acc, ts).Some?
    ensures var (c, rest) := Extend(level, acc, ts).value;
            Consumed(Flatten(acc) + ts, Flatten(c), rest) && Fits(c, level, Peek(rest))
    decreases |ts|, 19
  {
    hide Canonical, Flatten, Fits, Parse, ParseArgs;
    if 2 <= level <= 8 {
      OperatorSound(level, acc, ts);
    } else if ts[0].kind == OptionalChain || (ts[0].kind in {Pipe, Dot} && Peek(ts[2..]) != LParen) {
      BareSound(level, acc, ts);
    } else if ts[0].kind in {Pipe, Dot} {
      NamedSound(level, acc, ts);
    } else if ts[0].kind == LBracket {
      IndexSound(acc, ts);
    } else {
      CallSound(acc, ts);
    }
  }

  /** An operator and its right operand. */
  lemma {:induction false} OperatorSound(level: nat, acc: Cst, ts: seq<Token>)
    requires 2 <= level <= 8 && Canonical(ts) && Fits(acc, level, Peek(ts))
    requires Level(Peek(ts)) == level && Extend(level, acc, ts).Some?
    ensures var (c, rest) := Extend(level, acc, ts).value;
            Consumed(Flatten(acc) + ts, Flatten(c), rest) && Fits(c, level, Peek(rest))
    decreases |ts|, 18
  {
    hide Canonical, Parse, Full;
    Drop(ts, 0);
    ParseSound(level + 1, ts[1..]);
    var (right, rest) := Parse(level + 1, ts[1..]).value;
    assert ts == [ts[0]] + ts[1..];
    BinaryText(ts[0], acc, right, rest);
  }

  /** `| name` and `.name` without arguments, and `?.name`. */
  lemma BareSound(level: nat, acc: Cst, ts: seq<Token>)
    requires Canonical(ts) && (level == 0 || level == 10) && Level(Peek(ts)) == level
    requires ts[0].kind in {Pipe, Dot, OptionalChain} && Fits(acc, level, Peek(ts))
    requires Peek(ts[1..]) == Ident && (Peek(ts[2..]) == LParen ==> ts[0].kind == OptionalChain)
    ensures var (c, rest) := Extend(level, acc, ts).value;
            Consumed(Flatten(acc) + ts, Flatten(c), rest) && Fits(c, level, Peek(rest))
  {
    hide Canonical, Flatten, Parse, ParseArgs, Fits;
    Drop(ts, 0);
    Drop(ts, 1);
    var name, rest := ts[1].value, ts[2..];
    assert ts == [ts[0], Id(name)] + rest;
    BareText(acc, name, rest);
    BareFits(acc, ts[0].kind, name, Peek(rest));
  }

  lemma BareFits(acc: Cst, op: Kind, name: string, next: Kind)
    requires op in {Pipe, Dot, OptionalChain} && Fits(acc, if op == Pipe then 0 else 10, op)
    ensures next != LParen && op == Pipe ==> Fits(CPipeBare(acc, name), 0, next)
    ensures next != LParen && op == Dot ==> Fits(CDot(acc, name), 10, next)
    ensures op == OptionalChain ==> Fits(COptional(acc, name), 10, next)
  {
    hide Full;
  }

  /** `| name(...)` and `.name(...)`. */
  lemma {:induction false} NamedSound(level: nat, acc: Cst, ts: seq<Token>)
    requires Canonical(ts) && (level == 0 || level == 10) && Level(Peek(ts)) == level
    requires ts[0].kind in {Pipe, Dot} && Fits(acc, level, Peek(ts))
    requires Peek(ts[1..]) == Ident && Peek(ts[2..]) == LParen && Extend(level, acc, ts).Some?
    ensures var (c, rest) := Extend(level, acc, ts).value;
            Consumed(Flatten(acc) + ts, Flatten(c), rest) && Fits(c, level, Peek(rest))
    decreases |ts|, 18
  {
    hide Canonical, ParseArgs, Flatten, FitsList, Parse, Fits;
    Drop(ts, 0);
    Drop(ts, 2);
    var name := ts[1].value;
    ArgsSound(ts[3..]);
    var (args, rest) := ParseArgs(ts[3..]).value;
    assert ts == [ts[0], Id(name), LPAREN] + ts[3..];
    TextAfter(FlattenList(args), [RPAREN], rest);
    NamedText(acc, name, args, rest);
    NamedFits(acc, ts[0].kind, name, args, Peek(rest));
  }

  lemma NamedFits(acc: Cst, op: Kind, name: string, args: seq<Cst>, next: Kind)
    requires FitsList(args, RParen)
    ensures op == Pipe && Fits(acc, 0, Pipe) ==> Fits(CPipe(acc, name, args), 0, next)
    ensures op == Dot && Fits(acc, 10, Dot) ==> Fits(CMethod(acc, name, args), 10, next)
  {
  }

  /** `[...]`. */
  lemma {:induction false} IndexSound(acc: Cst, ts: seq<Token>)
    requires Canonical(ts) && Peek(ts) == LBracket && Fits(acc, 10, Peek(ts)) && Extend(10, acc, ts).Some?
    ensures var (c, rest) := Extend(10, acc, ts).value;
            Consumed(Flatten(acc) + ts, Flatten(c), rest) && Fits(c, 10, Peek(rest))
    decreases |ts|, 18
  {
    hide Canonical, ParseArgs, Parse, FitsList, Full;
    Drop(ts, 0);
    assert ts == [LBRACKET] + ts[1..];
    ParseSound(0, ts[1..]);
    var (index, r) := Parse(0, ts[1..]).value;
    Drop(r, 0);
    assert r == [RBRACKET] + r[1..];
    BracketText(Flatten(acc), [LBRACKET], Flatten(index), [RBRACKET], r[1..]);
  }

  /** `(...)`. */
  lemma {:induction false} CallSound(acc: Cst, ts: seq<Token>)
    requires Canonical(ts) && Peek(ts) == LParen && Fits(acc, 10, Peek(ts)) && Extend(10, acc, ts).Some?
    ensures var (c, rest) := Extend(10, acc, ts).value;
            Consumed(Flatten(acc) + ts, Flatten(c), rest) && Fits(c, 10, Peek(rest))
    decreases |ts|, 18
  {
    hide Canonical, ParseArgs, Parse, FitsList, Full;
    Drop(ts, 0);
    assert ts == [LPAREN] + ts[1..];
    ArgsSound(ts[1..]);
    var (args, rest) := ParseArgs(ts[1..]).value;
    TextAfter(FlattenList(args), [RPAREN], rest);
    BracketText(Flatten(acc), [LPAREN], FlattenList(args), [RPAREN], rest);
  }

  lemma {:induction false} ArgsSound(ts: seq<Token>)
    requires Canonical(ts) && ParseArgs(ts).Some?
    ensures var (args, rest) := ParseArgs(ts).value; Consumed(ts, FlattenList(args) + [RPAREN], rest) && FitsList(args, RParen)
    decreases |ts|, 17
  {
    hide Canonical, ParseList;
    Drop(ts, 0);
    if Peek(ts) == RParen {
      assert ts == [RPAREN] + ts[1..];
    } else {
      ListSound(ts);
      var (cs, r) := ParseList(ts).value;
      Drop(r, 0);
      assert r == [RPAREN] + r[1..];
      TextAfter(FlattenList(cs), [RPAREN], r[1..]);
    }
  }

  lemma {:induction false} ListSound(ts: seq<Token>)
    requires Canonical(ts) && ParseList(ts).Some?
    ensures var (cs, rest) := ParseList(ts).value;
            cs != [] && Consumed(ts, FlattenList(cs), rest) && FitsList(cs, Peek(rest))
    decreases |ts|, 16
  {
    hide Canonical, Parse;
    ParseSound(0, ts);
    var (c, rest) := Parse(0, ts).value;
    if Peek(rest) == Comma {
      Drop(rest, 0);
      ListSound(rest[1..]);
      var (cs, rest') := ParseList(rest[1..]).value;
      assert rest == [COMMA] + (FlattenList(cs) + rest');
      assert ([c] + cs)[1..] == cs;
      assert ts == (Flatten(c) + [COMMA] + FlattenList(cs)) + rest';
    }
  }

  lemma {:induction false} FieldsSound(ts: seq<Token>)
    requires Canonical(ts) && ParseFields(ts).Some?
    ensures var (ks, vs, rest) := ParseFields(ts).value;
            Consumed(ts, FlattenFields(ks, vs), rest) && (Peek(rest) == RBrace ==> FitsFields(ks, vs))
    decreases |ts|, 16
  {
    hide Canonical, Parse, Full, Flatten, FlattenFields, FitsFields, ParseFields;
    FieldsStart(ts);
    var body := ts[2..];
    Drop(ts, 1);
    assert ts == [ts[0], COLON] + body;
    ParseSound(0, body);
    var (c, rest) := Parse(0, body).value;
    if Peek(rest) != Comma {
      OneField(ts[0], c, rest);
    } else {
      Drop(rest, 0);
      FieldsSound(rest[1..]);
      FieldsJoin(ts, c, rest);
    }
  }

  lemma FieldsStart(ts: seq<Token>)
    requires ParseFields(ts).Some?
    ensures |ts| >= 2 && (ts[0].kind == Ident || ts[0].kind == Str) && ts[1].kind == Colon && Parse(0, ts[2..]).Some?
    ensures var (c, rest) := Parse(0, ts[2..]).value;
            if Peek(rest) != Comma then ParseFields(ts).value == ([ts[0]], [c], rest)
            else ParseFields(rest[1..]).Some? &&
                 var (ks, vs, rest') := ParseFields(rest[1..]).value;
                 ParseFields(ts).value == ([ts[0]] + ks, [c] + vs, rest')
  {
    hide Parse;
  }

  /** The first field joins the others behind the comma. */
  lemma FieldsJoin(ts: seq<Token>, c: Cst, rest: seq<Token>)
    requires |ts| >= 2 && ts[1] == COLON && ts[2..] == Flatten(c) + rest && Full(c, 0, Peek(rest))
    requires ts[0].kind == Ident || ts[0].kind == Str
    requires rest != [] && rest[0] == COMMA && ParseFields(rest[1..]).Some?
    requires var (ks, vs, rest') := ParseFields(rest[1..]).value;
             Consumed(rest[1..], FlattenFields(ks, vs), rest') && (Peek(rest') == RBrace ==> FitsFields(ks, vs))
    ensures var (ks, vs, rest') := ParseFields(rest[1..]).value;
            && Consumed(ts, FlattenFields([ts[0]] + ks, [c] + vs), rest')
            && (Peek(rest') == RBrace ==> FitsFields([ts[0]] + ks, [c] + vs))
  {
    hide Canonical, Parse, Full, Flatten, FlattenFields, FitsFields, ParseFields;
    var (ks, vs, rest') := ParseFields(rest[1..]).value;
    assert ts == [ts[0], COLON] + ts[2..];
    assert rest == [COMMA] + (FlattenFields(ks, vs) + rest');
    MoreFields(ts[0], c, ks, vs);
    BracketText([ts[0], COLON], Flatten(c), [COMMA], FlattenFields(ks, vs), rest');
  }

  lemma OneField(k: Token, c: Cst, rest: seq<Token>)
    ensures FlattenFields([k], [c]) + rest == [k, COLON] + (Flatten(c) + rest)
    ensures (k.kind == Ident || k.kind == Str) && Full(c, 0, RBrace) ==> FitsFields([k], [c])
  {
    hide Full, Flatten;
    TextAfter([k, COLON], Flatten(c), rest);
  }

  lemma MoreFields(k: Token, c: Cst, ks: seq<Token>, vs: seq<Cst>)
    requires |ks| == |vs| > 0
    ensures FlattenFields([k] + ks, [c] + vs) == [k, COLON] + Flatten(c) + [COMMA] + FlattenFields(ks, vs)
    ensures (k.kind == Ident || k.kind == Str) && Full(c, 0, Comma) && FitsFields(ks, vs) ==> FitsFields([k] + ks, [c] + vs)
  {
    hide Full, Flatten;
    assert ([c] + vs)[1..] == vs && ([k] + ks)[1..] == ks;
  }

  lemma {:induction false} PrimarySound(ts: seq<Token>)
    requires Canonical(ts) && ParsePrimary(ts).Some?
    ensures var (c, rest) := ParsePrimary(ts).value; Consumed(ts, Flatten(c), rest) && FitsPrimary(c, Peek(rest))
    decreases |ts|, 0, 1
  {
    hide Canonical, Parse, ParseList, ParseFields, Full, LiteralOf;
    var (c, rest) := ParsePrimary(ts).value;
    Drop(ts, 0);
    if ts[0].kind == Ident && Peek(ts[1..]) == Arrow {
      LambdaSound(ts);
    } else if ts[0].kind == LParen {
      ParenSound(ts);
    } else if ts[0].kind == LBracket {
      ArraySound(ts);
    } else if ts[0].kind == LBrace {
      ObjectSound(ts);
    } else {
      assert ts == [ts[0]] + ts[1..];
    }
  }

  lemma {:induction false} LambdaSound(ts: seq<Token>)
    requires Canonical(ts) && Peek(ts) == Ident && Peek(ts[1..]) == Arrow && ParsePrimary(ts).Some?
    ensures var (c, rest) := ParsePrimary(ts).value; Consumed(ts, Flatten(c), rest) && FitsPrimary(c, Peek(rest))
    decreases |ts|, 0, 0
  {
    hide Canonical, Parse, Full;
    Drop(ts, 1);
    ParseSound(0, ts[2..]);
    var (body, rest) := Parse(0, ts[2..]).value;
    assert ts == [Id(ts[0].value), ARROW] + ts[2..];
    TextAfter([Id(ts[0].value), ARROW], Flatten(body), rest);
  }

  lemma {:induction false} ParenSound(ts: seq<Token>)
    requires Canonical(ts) && Peek(ts) == LParen && ParsePrimary(ts).Some?
    ensures var (c, rest) := ParsePrimary(ts).value; Consumed(ts, Flatten(c), rest) && FitsPrimary(c, Peek(rest))
    decreases |ts|, 0, 0
  {
    hide Canonical, Parse, Full;
    Drop(ts, 0);
    ParseSound(0, ts[1..]);
    var (inner, r) := Parse(0, ts[1..]).value;
    Drop(r, 0);
    assert r == [RPAREN] + r[1..] && ts == [LPAREN] + ts[1..];
    BracketText([], [LPAREN], Flatten(inner), [RPAREN], r[1..]);
    assert [] + [LPAREN] == [LPAREN];
  }

  lemma {:induction false} ArraySound(ts: seq<Token>)
    requires Canonical(ts) && Peek(ts) == LBracket && ParsePrimary(ts).Some?
    ensures var (c, rest) := ParsePrimary(ts).value; Consumed(ts, Flatten(c), rest) && FitsPrimary(c, Peek(rest))
    decreases |ts|, 0, 0
  {
    hide Canonical, Parse, ParseList, Full;
    var (c, rest) := ParsePrimary(ts).value;
    Drop(ts, 0);
    if Peek(ts[1..]) == RBracket {
      Drop(ts, 1);
      assert ts == [LBRACKET, RBRACKET] + rest;
    } else {
      ListSound(ts[1..]);
      var r := ParseList(ts[1..]).value.1;
      Drop(r, 0);
      assert r == [RBRACKET] + rest;
      assert ts == Flatten(c) + rest;
    }
  }

  lemma {:induction false} ObjectSound(ts: seq<Token>)
    requires Canonical(ts) && Peek(ts) == LBrace && ParsePrimary(ts).Some?
    ensures var (c, rest) := ParsePrimary(ts).value; Consumed(ts, Flatten(c), rest) && FitsPrimary(c, Peek(rest))
    decreases |ts|, 0, 0
  {
    hide Canonical, Parse, ParseFields, Full;
    var (c, rest) := ParsePrimary(ts).value;
    Drop(ts, 0);
    if Peek(ts[1..]) == RBrace {
      Drop(ts, 1);
      assert ts == [LBRACE, RBRACE] + rest;
    } else {
      FieldsSound(ts[1..]);
      var r := ParseFields(ts[1..]).value.2;
      Drop(r, 0);
      assert r == [RBRACE] + rest;
      BracesText(c.keys, c.values, rest);
    }
  }

  lemma BracesText(ks: seq<Token>, vs: seq<Cst>, rest: seq<Token>)
    ensures Flatten(CObject(ks, vs)) + rest == [LBRACE] + (FlattenFields(ks, vs) + ([RBRACE] + rest))
  {
    TextAfter([LBRACE] + FlattenFields(ks, vs), [RBRACE], rest);
    TextAfter([LBRACE], FlattenFields(ks, vs), [RBRACE] + rest);
  }
}
