/**
 * The recursive-descent parser as a cursor over a token list. Every method leaves the cursor where the specified
 * parser stops and returns what its tree denotes.
 */
module Parsing {
  import opened Options
  import opened Tokens
  import opened Syntax
  import opened Grammar
  import Lexing

  /** Elements read before the rest of a list. */
  function ListAfter(cs: seq<Cst>, r: Option<(seq<Cst>, seq<Token>)>): Option<(seq<Cst>, seq<Token>)> {
    if r.None? then None else Some((cs + r.value.0, r.value.1))
  }

  /** Fields read before the rest of an object. */
  function FieldsAfter(ks: seq<Token>, vs: seq<Cst>, r: Option<(seq<Token>, seq<Cst>, seq<Token>)>)
    : Option<(seq<Token>, seq<Cst>, seq<Token>)>
  {
    if r.None? then None else Some((ks + r.value.0, vs + r.value.1, r.value.2))
  }

  class Parser {
    const tokens: seq<Token>
    var pos: nat

    constructor (tokens: seq<Token>)
      ensures this.tokens == tokens && pos == 0
    {
      this.tokens := tokens;
      pos := 0;
    }

    predicate Valid()
      reads this
    {
      pos <= |tokens|
    }

    function Rest(): seq<Token>
      requires Valid()
      reads this
    {
      tokens[pos..]
    }

    function Next(): (k: Kind)
      requires Valid()
      reads this
      ensures k == Peek(Rest())
    {
      if pos >= |tokens| then EOF else tokens[pos].kind
    }

    /** What was parsed is the abstraction of the specified tree, and the cursor stands behind it. */
    ghost predicate Agrees(spec: Parsed, r: Option<Expr>)
      reads this
    {
      Valid() && (r.Some? <==> spec.Some?) &&
      (spec.Some? ==> r.value == Abstract(spec.value.0) && Rest() == spec.value.1)
    }

    method Advance() returns (t: Token)
      requires Valid()
      modifies this`pos
      ensures Valid()
      ensures if old(pos) < |tokens| then t == tokens[old(pos)] && pos == old(pos) + 1
              else t == EOF_TOKEN && pos == old(pos)
      ensures old(Rest()) != [] ==> Rest() == old(Rest())[1..]
    {
      if pos < |tokens| {
        t := tokens[pos];
        pos := pos + 1;
      } else {
        t := EOF_TOKEN;
      }
    }

    method Expect(kind: Kind) returns (t: Option<Token>)
      requires Valid() && kind != EOF
      modifies this`pos
      ensures Valid() && (t.Some? <==> Peek(old(Rest())) == kind)
      ensures t.Some? ==> t.value == old(Rest())[0] && Rest() == old(Rest())[1..] && pos == old(pos) + 1
      ensures t.None? ==> pos == old(pos)
    {
      if Next() != kind {
        return None;
      }
      var tok := Advance();
      return Some(tok);
    }

    /** A pipe: filters, with or without arguments, applied from left to right. */
    method ParseExpression() returns (r: Option<Expr>)
      requires Valid()
      modifies this`pos
      ensures Agrees(Parse(0, old(Rest())), r)
      decreases |tokens| - pos, 12
    {
      hide Loop, Extend;
      ghost var start := Rest();
      r := ParseTernary();
      if r.None? {
        return;
      }
      var expr := r.value;
      ghost var acc := Parse(1, start).value.0;
      while Next() == Pipe
        invariant old(pos) < pos && Valid() && expr == Abstract(acc)
        invariant Parse(0, start) == Loop(0, acc, Rest())
        decreases |tokens| - pos
      {
        ghost var ts := Rest();
        LoopStep(0, acc, ts);
        var next := ParseFilter(expr, acc);
        if next.None? {
          return None;
        }
        expr := next.value;
        acc := Extend(0, acc, ts).value.0;
      }
      LoopStep(0, acc, Rest());
      return Some(expr);
    }

    /** One turn of the pipe loop: `| name` or `| name(...)`. */
    method ParseFilter(expr: Expr, ghost acc: Cst) returns (r: Option<Expr>)
      requires Valid() && Next() == Pipe && expr == Abstract(acc)
      modifies this`pos
      ensures Agrees(Extend(0, acc, old(Rest())), r)
      decreases |tokens| - pos, 15
    {
      hide Extend, ParseArgs, AbstractAll, Syntax.Parse, Level, Abstract;
      SuffixLevels();
      ghost var ts := Rest();
      ExtendNamed(0, acc, ts);
      var _ := Advance();
      var name := Expect(Ident);
      if name.None? {
        return None;
      }
      AbstractBare(acc, name.value.value);
      if Next() == LParen {
        var _ := Advance();
        ghost var given := ParseArgs(Rest());
        var args := ParseCallArgs();
        if given.Some? {
          AbstractWithArgs(acc, name.value.value, given.value.0);
        }
        return if args.None? then None else Some(PipeExpr(expr, name.value.value, args.value));
      }
      return Some(PipeExpr(expr, name.value.value, []));
    }

    /** Arguments after `(`, with the closing parenthesis. */
    method ParseCallArgs() returns (r: Option<seq<Expr>>)
      requires Valid()
      modifies this`pos
      ensures Valid() && (r.Some? <==> ParseArgs(old(Rest())).Some?)
      ensures r.Some? ==> var (cs, rest) := ParseArgs(old(Rest())).value; r.value == AbstractAll(cs) && Rest() == rest
      decreases |tokens| - pos, 14
    {
      var args: seq<Expr> := [];
      if Next() != RParen {
        var given := ParseArgList();
        if given.None? {
          return None;
        }
        args := given.value;
      }
      var close := Expect(RParen);
      if close.None? {
        return None;
      }
      return Some(args);
    }

    /** One or more expressions separated by commas: call arguments and array elements. */
    method ParseArgList() returns (r: Option<seq<Expr>>)
      requires Valid()
      modifies this`pos
      ensures Valid() && (r.Some? <==> ParseList(old(Rest())).Some?)
      ensures r.Some? ==> var (cs, rest) := ParseList(old(Rest())).value; r.value == AbstractAll(cs) && Rest() == rest
      decreases |tokens| - pos, 13
    {
      hide Parse;
      ghost var start := ParseList(Rest());
      var args: seq<Expr> := [];
      ghost var cs: seq<Cst> := [];
      ListAfterNothing(start);
      while true
        invariant Valid() && old(pos) <= pos && args == AbstractAll(cs)
        invariant start == ListAfter(cs, ParseList(Rest()))
        decreases |tokens| - pos
      {
        ghost var ts := Rest();
        var arg := ParseExpression();
        if arg.None? {
          return None;
        }
        ghost var c := Parse(0, ts).value.0;
        args := args + [arg.value];
        AbstractMore(cs, c);
        ListStep(cs, ts);
        cs := cs + [c];
        if Next() != Comma {
          return Some(args);
        }
        var _ := Advance();
      }
    }

    method ParseTernary() returns (r: Option<Expr>)
      requires Valid()
      modifies this`pos
      ensures Agrees(Parse(1, old(Rest())), r)
      decreases |tokens| - pos, 11
    {
      hide Parse, Abstract;
      ghost var start := Rest();
      TernaryStep(start);
      r := ParseBinary(2);
      if r.None? {
        return;
      }
      if Next() == Question {
        var _ := Advance();
        ghost var second := Parse(0, Rest());
        var thn := ParseExpression();
        if thn.None? {
          return None;
        }
        var colon := Expect(Colon);
        if colon.None? {
          return None;
        }
        ghost var third := Parse(0, Rest());
        var els := ParseExpression();
        if els.None? {
          return None;
        }
        AbstractOperators(EOF_TOKEN, Parse(2, start).value.0, second.value.0, third.value.0);
        return Some(TernaryExpr(r.value, thn.value, els.value));
      }
    }

    /** The seven left-associative operator levels, from `??` to `*`; the operators of a level are those of Level. */
    method ParseBinary(level: nat) returns (r: Option<Expr>)
      requires Valid() && 2 <= level <= 8
      modifies this`pos
      ensures Agrees(Parse(level, old(Rest())), r)
      decreases |tokens| - pos, 12 - level, 0
    {
      hide Loop, Extend, Operator, Abstract, Syntax.Parse;
      ghost var start := Rest();
      LoopStarts(level, start);
      r := ParseOperand(level + 1);
      if r.None? {
        return;
      }
      var expr := r.value;
      ghost var acc := Parse(level + 1, start).value.0;
      while Level(Next()) == level
        invariant old(pos) < pos && Valid() && expr == Abstract(acc)
        invariant Parse(level, start) == Loop(level, acc, Rest())
        decreases |tokens| - pos
      {
        ghost var ts := Rest();
        LoopStep(level, acc, ts);
        ExtendBinary(level, acc, ts);
        var tok := Advance();
        ghost var given := Parse(level + 1, Rest());
        var right := ParseOperand(level + 1);
        if right.None? {
          return None;
        }
        AbstractOperators(tok, acc, given.value.0, acc);
        expr := if level == 2 then NullCoalesceExpr(expr, right.value) else BinaryExpr(Operator(tok), expr, right.value);
        acc := Extend(level, acc, ts).value.0;
      }
      LoopStep(level, acc, Rest());
      return Some(expr);
    }

    method ParseOperand(level: nat) returns (r: Option<Expr>)
      requires Valid() && 3 <= level <= 9
      modifies this`pos
      ensures Agrees(Parse(level, old(Rest())), r)
      decreases |tokens| - pos, 12 - level, 1
    {
      if level == 9 {
        r := ParseUnary();
      } else {
        r := ParseBinary(level);
      }
    }

    method ParseUnary() returns (r: Option<Expr>)
      requires Valid()
      modifies this`pos
      ensures Agrees(Parse(9, old(Rest())), r)
      decreases |tokens| - pos, 3, 0
    {
      if Next() == Not {
        var _ := Advance();
        var operand := ParseUnary();
        if operand.None? {
          return None;
        }
        return Some(UnaryExpr(operand.value));
      }
      r := ParsePostfix();
    }

    method ParsePostfix() returns (r: Option<Expr>)
      requires Valid()
      modifies this`pos
      ensures Agrees(Parse(10, old(Rest())), r)
      decreases |tokens| - pos, 2
    {
      hide Loop, Extend;
      ghost var start := Rest();
      r := ParsePrimaryExpr();
      if r.None? {
        return;
      }
      var expr := r.value;
      ghost var acc := Parse(11, start).value.0;
      while Level(Next()) == 10
        invariant old(pos) < pos && Valid() && expr == Abstract(acc)
        invariant Parse(10, start) == Loop(10, acc, Rest())
        decreases |tokens| - pos
      {
        ghost var ts := Rest();
        LoopStep(10, acc, ts);
        var next := ParseSuffix(expr, acc);
        if next.None? {
          return None;
        }
        expr := next.value;
        acc := Extend(10, acc, ts).value.0;
      }
      LoopStep(10, acc, Rest());
      return Some(expr);
    }

    /** One turn of the postfix loop. */
    method ParseSuffix(expr: Expr, ghost acc: Cst) returns (r: Option<Expr>)
      requires Valid() && Level(Next()) == 10 && expr == Abstract(acc)
      modifies this`pos
      ensures Agrees(Extend(10, acc, old(Rest())), r)
      decreases |tokens| - pos, 16
    {
      if Next() == Dot {
        r := ParseMember(expr, acc);
      } else if Next() == OptionalChain {
        r := ParseOptional(expr, acc);
      } else if Next() == LBracket {
        r := ParseIndex(expr, acc);
      } else {
        r := ParseCall(expr, acc);
      }
    }

    /** `?.name`. */
    method ParseOptional(expr: Expr, ghost acc: Cst) returns (r: Option<Expr>)
      requires Valid() && Next() == OptionalChain && expr == Abstract(acc)
      modifies this`pos
      ensures Agrees(Extend(10, acc, old(Rest())), r)
      decreases |tokens| - pos, 15
    {
      hide Extend, AbstractAll, ParseArgs, Syntax.Parse, Level, Abstract;
      SuffixLevels();
      ExtendNamed(10, acc, Rest());
      var _ := Advance();
      var name := Expect(Ident);
      if name.None? {
        return None;
      }
      AbstractBare(acc, name.value.value);
      return Some(OptionalChainExpr(expr, name.value.value));
    }

    /** `.name` or `.name(...)`. */
    method ParseMember(expr: Expr, ghost acc: Cst) returns (r: Option<Expr>)
      requires Valid() && Next() == Dot && expr == Abstract(acc)
      modifies this`pos
      ensures Agrees(Extend(10, acc, old(Rest())), r)
      decreases |tokens| - pos, 15
    {
      hide Extend, ParseArgs, AbstractAll, Syntax.Parse, Level, Abstract;
      SuffixLevels();
      ghost var ts := Rest();
      ExtendNamed(10, acc, ts);
      var _ := Advance();
      var name := Expect(Ident);
      if name.None? {
        return None;
      }
      AbstractBare(acc, name.value.value);
      if Next() == LParen {
        var _ := Advance();
        ghost var given := ParseArgs(Rest());
        var args := ParseCallArgs();
        if given.Some? {
          AbstractWithArgs(acc, name.value.value, given.value.0);
        }
        return if args.None? then None else Some(PipeExpr(expr, name.value.value, args.value));
      }
      return Some(DotExpr(expr, name.value.value));
    }

    /** `[index]`. */
    method ParseIndex(expr: Expr, ghost acc: Cst) returns (r: Option<Expr>)
      requires Valid() && Next() == LBracket && expr == Abstract(acc)
      modifies this`pos
      ensures Agrees(Extend(10, acc, old(Rest())), r)
      decreases |tokens| - pos, 15
    {
      hide Extend, ParseArgs, AbstractAll, Syntax.Parse, Level, Abstract;
      ExtendBracket(acc, Rest());
      var _ := Advance();
      ghost var given := Parse(0, Rest());
      var index := ParseExpression();
      if index.None? {
        return None;
      }
      AbstractBracket(acc, given.value.0, []);
      var close := Expect(RBracket);
      return if close.None? then None else Some(IndexExpr(expr, index.value));
    }

    /** A call `(...)` of what stands before it. */
    method ParseCall(expr: Expr, ghost acc: Cst) returns (r: Option<Expr>)
      requires Valid() && Next() == LParen && expr == Abstract(acc)
      modifies this`pos
      ensures Agrees(Extend(10, acc, old(Rest())), r)
      decreases |tokens| - pos, 15
    {
      hide Extend, ParseArgs, AbstractAll, Syntax.Parse, Level, Abstract;
      ExtendBracket(acc, Rest());
      var _ := Advance();
      ghost var given := ParseArgs(Rest());
      var args := ParseCallArgs();
      if given.Some? {
        AbstractBracket(acc, acc, given.value.0);
      }
      return if args.None? then None else Some(CallExpr(expr, args.value));
    }

    method ParsePrimaryExpr() returns (r: Option<Expr>)
      requires Valid()
      modifies this`pos
      ensures Agrees(ParsePrimary(old(Rest())), r)
      decreases |tokens| - pos, 1
    {
      hide Parse, ParseList, ParseFields, LiteralOf, Abstract;
      var k := Next();
      if IsLiteral(k) {
        r := ParseLiteral();
      } else if k == Ident {
        r := ParseNameOrLambda();
      } else if k == LParen {
        r := ParseParenthesised();
      } else if k == LBracket {
        r := ParseArrayLiteral();
      } else if k == LBrace {
        r := ParseObjectLiteral();
      } else {
        return None;
      }
    }

    method ParseLiteral() returns (r: Option<Expr>)
      requires Valid() && IsLiteral(Next())
      modifies this`pos
      ensures Agrees(ParsePrimary(old(Rest())), r)
      decreases |tokens| - pos, 0
    {
      hide Parse, ParseList, ParseFields, ParseInt64, FloatInRange;
      var tok := Advance();
      var literal := LiteralOf(tok);
      return if literal.None? then None else Some(Lit(literal.value));
    }

    method ParseNameOrLambda() returns (r: Option<Expr>)
      requires Valid() && Next() == Ident
      modifies this`pos
      ensures Agrees(ParsePrimary(old(Rest())), r)
      decreases |tokens| - pos, 0
    {
      hide Parse, ParseList, ParseFields;
      ghost var ts := Rest();
      var tok := Advance();
      if Next() == Arrow {
        var _ := Advance();
        assert Rest() == ts[2..];
        var body := ParseExpression();
        if body.None? {
          return None;
        }
        return Some(LambdaExpr(tok.value, body.value));
      }
      return Some(Name(tok.value));
    }

    method ParseParenthesised() returns (r: Option<Expr>)
      requires Valid() && Next() == LParen
      modifies this`pos
      ensures Agrees(ParsePrimary(old(Rest())), r)
      decreases |tokens| - pos, 0
    {
      hide Parse, ParseList, ParseFields, LiteralOf;
      var _ := Advance();
      r := ParseExpression();
      if r.None? {
        return;
      }
      var close := Expect(RParen);
      if close.None? {
        return None;
      }
    }

    method ParseArrayLiteral() returns (r: Option<Expr>)
      requires Valid() && Next() == LBracket
      modifies this`pos
      ensures Agrees(ParsePrimary(old(Rest())), r)
      decreases |tokens| - pos, 0
    {
      hide Parse, ParseList;
      ghost var ts := Rest();
      var _ := Advance();
      var elements: seq<Expr> := [];
      if Next() != RBracket {
        var given := ParseArgList();
        if given.None? {
          return None;
        }
        elements := given.value;
      }
      var close := Expect(RBracket);
      if close.None? {
        return None;
      }
      assert ts[1..][1..] == ts[2..];
      return Some(ArrayExpr(elements));
    }

    method ParseObjectLiteral() returns (r: Option<Expr>)
      requires Valid() && Next() == LBrace
      modifies this`pos
      ensures Agrees(ParsePrimary(old(Rest())), r)
      decreases |tokens| - pos, 0
    {
      hide Parse, ParseFields;
      ghost var ts := Rest();
      var _ := Advance();
      var keys: seq<string>, values: seq<Expr> := [], [];
      if Next() != RBrace {
        var given := ParseObjectFields();
        if given.None? {
          return None;
        }
        keys, values := given.value.0, given.value.1;
      }
      var close := Expect(RBrace);
      if close.None? {
        return None;
      }
      assert ts[1..][1..] == ts[2..];
      return Some(ObjectExpr(keys, values));
    }

    /** The loop of the object literal. */
    method ParseObjectFields() returns (r: Option<(seq<string>, seq<Expr>)>)
      requires Valid()
      modifies this`pos
      ensures Valid() && (r.Some? <==> ParseFields(old(Rest())).Some?)
      ensures r.Some? ==> var (ks, vs, rest) := ParseFields(old(Rest())).value;
                          r.value == (KeyNames(ks), AbstractAll(vs)) && Rest() == rest
      decreases |tokens| - pos, 13
    {
      hide Parse;
      ghost var start := ParseFields(Rest());
      var keys: seq<string>, values: seq<Expr> := [], [];
      ghost var ks: seq<Token>, vs: seq<Cst> := [], [];
      FieldsAfterNothing(start);
      while true
        invariant Valid() && old(pos) <= pos && keys == KeyNames(ks) && values == AbstractAll(vs)
        invariant start == FieldsAfter(ks, vs, ParseFields(Rest()))
        decreases |tokens| - pos
      {
        ghost var ts := Rest();
        if Next() != Ident && Next() != Str {
          return None;
        }
        var key := Advance();
        var colon := Expect(Colon);
        if colon.None? {
          return None;
        }
        assert Rest() == ts[2..];
        var value := ParseExpression();
        if value.None? {
          return None;
        }
        ghost var c := Parse(0, ts[2..]).value.0;
        keys, values := keys + [key.value], values + [value.value];
        KeyNamesMore(ks, key);
        AbstractMore(vs, c);
        FieldsStep(ks, vs, ts);
        ks, vs := ks + [key], vs + [c];
        if Next() != Comma {
          return Some((keys, values));
        }
        var _ := Advance();
      }
    }
  }

  /** Lexing, then one expression up to the end of the input. */
  method ParseInput(input: string) returns (r: Option<Expr>)
    ensures r == Meaning(input)
  {
    var lexer := new Lexing.Lexer(input);
    var tokens := lexer.Lex();
    if tokens.None? {
      return None;
    }
    var p := new Parser(tokens.value);
    assert p.Rest() == tokens.value;
    r := p.ParseExpression();
    if r.Some? && p.Next() != EOF {
      return None;
    }
  }

  /** The expression a text denotes. */
  function Meaning(input: string): Option<Expr> {
    match LexFrom(input, true)
    case None => None
    case Some(ts) =>
      match ParseTokens(ts)
      case None => None
      case Some(c) => Some(Abstract(c))
  }

  // ---------- Turns of the loops ----------

  lemma LoopStep(level: nat, acc: Cst, ts: seq<Token>)
    requires IsLoop(level)
    ensures Level(Peek(ts)) != level ==> Loop(level, acc, ts) == Some((acc, ts))
    ensures Level(Peek(ts)) == level && Extend(level, acc, ts).None? ==> Loop(level, acc, ts).None?
    ensures Level(Peek(ts)) == level && Extend(level, acc, ts).Some? ==>
              var (c, rest) := Extend(level, acc, ts).value; Loop(level, acc, ts) == Loop(level, c, rest)
  {
  }

  /** What `|`, `.` and `?.` make of the tokens behind them. */
  lemma ExtendNamed(level: nat, acc: Cst, ts: seq<Token>)
    requires (level == 0 || level == 10) && Level(Peek(ts)) == level && Peek(ts) in {Pipe, Dot, OptionalChain}
    ensures var op, r := Peek(ts), Extend(level, acc, ts);
            if Peek(ts[1..]) != Ident then r.None?
            else var name, rest := ts[1..][0].value, ts[1..][1..];
              if op == OptionalChain then r == Some((COptional(acc, name), rest))
              else if Peek(rest) != LParen then r == Some((if op == Dot then CDot(acc, name) else CPipeBare(acc, name), rest))
              else match ParseArgs(rest[1..])
                case None => r.None?
                case Some((args, rest')) =>
                  r == Some((if op == Dot then CMethod(acc, name, args) else CPipe(acc, name, args), rest'))
  {
    if Peek(ts[1..]) == Ident {
      assert ts[1..][1..] == ts[2..];
      assert Peek(ts[2..]) == LParen ==> ts[2..][1..] == ts[3..];
    }
  }

  lemma ExtendBinary(level: nat, acc: Cst, ts: seq<Token>)
    requires 2 <= level <= 8 && Level(Peek(ts)) == level
    ensures Extend(level, acc, ts) ==
            match Parse(level + 1, ts[1..]) case None => None case Some((c, rest)) => Some((CBinary(ts[0], acc, c), rest))
  {
  }

  lemma ExtendBracket(acc: Cst, ts: seq<Token>)
    requires Peek(ts) in {LBracket, LParen}
    ensures Peek(ts) == LParen ==>
              var inner, r := ParseArgs(ts[1..]), Extend(10, acc, ts);
              if inner.None? then r.None? else r == Some((CCall(acc, inner.value.0), inner.value.1))
    ensures Peek(ts) == LBracket ==>
              var inner, r := Parse(0, ts[1..]), Extend(10, acc, ts);
              if inner.None? || Peek(inner.value.1) != RBracket then r.None?
              else r == Some((CIndex(acc, inner.value.0), inner.value.1[1..]))
  {
  }

  lemma AbstractBare(acc: Cst, name: string)
    ensures Abstract(CPipeBare(acc, name)) == PipeExpr(Abstract(acc), name, [])
    ensures Abstract(CDot(acc, name)) == DotExpr(Abstract(acc), name)
    ensures Abstract(COptional(acc, name)) == OptionalChainExpr(Abstract(acc), name)
  {
  }

  lemma AbstractBracket(acc: Cst, index: Cst, args: seq<Cst>)
    ensures Abstract(CIndex(acc, index)) == IndexExpr(Abstract(acc), Abstract(index))
    ensures Abstract(CCall(acc, args)) == CallExpr(Abstract(acc), AbstractAll(args))
  {
  }

  lemma AbstractOperators(tok: Token, x: Cst, t: Cst, e: Cst)
    ensures Abstract(CTernary(x, t, e)) == TernaryExpr(Abstract(x), Abstract(t), Abstract(e))
    ensures Abstract(CBinary(tok, x, t)) ==
            if Level(tok.kind) == 2 then NullCoalesceExpr(Abstract(x), Abstract(t))
            else BinaryExpr(Operator(tok), Abstract(x), Abstract(t))
  {
  }

  lemma AbstractWithArgs(acc: Cst, name: string, args: seq<Cst>)
    ensures Abstract(CPipe(acc, name, args)) == PipeExpr(Abstract(acc), name, AbstractAll(args))
    ensures Abstract(CMethod(acc, name, args)) == PipeExpr(Abstract(acc), name, AbstractAll(args))
  {
  }

  lemma SuffixLevels()
    ensures Level(Pipe) == 0 && Level(Dot) == Level(OptionalChain) == Level(LBracket) == Level(LParen) == 10
  {
  }

  lemma TernaryStep(ts: seq<Token>)
    ensures Parse(1, ts) == match Parse(2, ts) case None => None case Some((c, rest)) => ParseTernaryTail(c, rest)
  {
  }

  lemma ListAfterNothing(r: Option<(seq<Cst>, seq<Token>)>)
    ensures ListAfter([], r) == r
  {
    if r.Some? {
      assert [] + r.value.0 == r.value.0;
    }
  }

  lemma FieldsAfterNothing(r: Option<(seq<Token>, seq<Cst>, seq<Token>)>)
    ensures FieldsAfter([], [], r) == r
  {
    if r.Some? {
      assert [] + r.value.0 == r.value.0 && [] + r.value.1 == r.value.1;
    }
  }

  lemma ListStep(cs: seq<Cst>, ts: seq<Token>)
    requires Parse(0, ts).Some?
    ensures var (c, rest) := Parse(0, ts).value;
            ListAfter(cs, ParseList(ts)) ==
            if Peek(rest) == Comma then ListAfter(cs + [c], ParseList(rest[1..])) else Some((cs + [c], rest))
  {
    var (c, rest) := Parse(0, ts).value;
    if Peek(rest) == Comma && ParseList(rest[1..]).Some? {
      var more := ParseList(rest[1..]).value.0;
      assert cs + ([c] + more) == cs + [c] + more;
    }
  }

  /** A level of operators starts with an operand of the next. */
  lemma LoopStarts(level: nat, ts: seq<Token>)
    requires 2 <= level <= 8
    ensures Parse(level + 1, ts).None? ==> Parse(level, ts).None?
    ensures Parse(level + 1, ts).Some? ==>
              var (c, rest) := Parse(level + 1, ts).value;
              Parse(level, ts) == Loop(level, c, rest)
  {
    hide Loop;
  }

  lemma FieldsStep(ks: seq<Token>, vs: seq<Cst>, ts: seq<Token>)
    requires Peek(ts) in {Ident, Str} && Peek(ts[1..]) == Colon && Parse(0, ts[2..]).Some?
    ensures var (c, rest) := Parse(0, ts[2..]).value;
            FieldsAfter(ks, vs, ParseFields(ts)) ==
            if Peek(rest) == Comma then FieldsAfter(ks + [ts[0]], vs + [c], ParseFields(rest[1..]))
            else Some((ks + [ts[0]], vs + [c], rest))
  {
    hide Parse;
    var (c, rest) := Parse(0, ts[2..]).value;
    if Peek(rest) == Comma && ParseFields(rest[1..]).Some? {
      var (ks', vs', _) := ParseFields(rest[1..]).value;
      assert ks + ([ts[0]] + ks') == ks + [ts[0]] + ks' && vs + ([c] + vs') == vs + [c] + vs';
    }
  }

  lemma {:induction false} AbstractMore(cs: seq<Cst>, c: Cst)
    ensures AbstractAll(cs + [c]) == AbstractAll(cs) + [Abstract(c)]
  {
    if cs == [] {
      assert cs + [c] == [c];
    } else {
      assert (cs + [c])[1..] == cs[1..] + [c];
      AbstractMore(cs[1..], c);
    }
  }

  lemma {:induction false} KeyNamesMore(ks: seq<Token>, k: Token)
    ensures KeyNames(ks + [k]) == KeyNames(ks) + [k.value]
  {
    if ks == [] {
      assert ks + [k] == [k];
    } else {
      assert (ks + [k])[1..] == ks[1..] + [k];
      KeyNamesMore(ks[1..], k);
    }
  }
}
