/** What the lexer makes of particular texts. */
module LexRules {
  import opened Options
  import opened Tokens
  import opened Syntax

  // Escapes, keywords and signs, written out.

  /** A string of one escape: the five known ones are replaced, any other is kept with its backslash. */
  lemma EscapesRead(c: char, operand: bool)
    ensures LexFrom("\"\\" + [c] + "\"", operand) == Some([Token(Str,
              if c == 'n' then "\n" else if c == 't' then "\t" else if c == '\\' || c == '"' || c == '\'' then [c]
              else "\\" + [c]), EOF_TOKEN])
  {
    var s := "\"\\" + [c] + "\"";
    var body := s[1..];
    assert body == ['\\', c, '"'] && body[2..] == "\"" && body[2..][1..] == "";
    assert StringBody(body[2..], '"') == Some(("", 1));
    assert StringBody(body, '"') == Some((Unescape(c) + "", 3));
    assert NextToken(s, operand) == Some((Token(Str, Unescape(c) + ""), 4));
    assert s[4..] == "";
    LexOne(s, operand, Token(Str, Unescape(c) + ""));
    assert Unescape(c) + "" == Unescape(c) && ['\\', c] == "\\" + [c];
  }

  lemma LexOne(s: string, operand: bool, t: Token)
    requires s != "" && !IsSpace(s[0]) && NextToken(s, operand) == Some((t, |s|))
    ensures LexFrom(s, operand) == Some([t, EOF_TOKEN])
  {
    assert s[|s|..] == "";
    assert LexFrom("", OperandExpected(t.kind)) == Some([EOF_TOKEN]);
    assert [t] + [EOF_TOKEN] == [t, EOF_TOKEN];
  }

  /** A quote inside a string of the other quotes, and a quote of its own kind that ends it. */
  lemma QuotesRead(operand: bool)
    ensures LexFrom("'\"'", operand) == Some([Token(Str, "\""), EOF_TOKEN])
    ensures LexFrom("\"'\"", operand) == Some([Token(Str, "'"), EOF_TOKEN])
    ensures LexFrom("\"", operand) == None && LexFrom("'\"", operand) == None
  {
    QuoteRead('\'', '"', operand);
    QuoteRead('"', '\'', operand);
    assert StringBody("\""[1..], '"') == None;
    assert "'\""[1..] == "\"" && "\""[1..] == "" && StringBody("", '\'') == None && StringBody("\"", '\'') == None;
  }

  lemma QuoteRead(quote: char, inside: char, operand: bool)
    requires (quote == '"' && inside == '\'') || (quote == '\'' && inside == '"')
    ensures LexFrom([quote, inside, quote], operand) == Some([Token(Str, [inside]), EOF_TOKEN])
  {
    var s := [quote, inside, quote];
    var body := s[1..];
    assert body == [inside, quote] && body[1..] == [quote] && [quote][1..] == "";
    assert StringBody([quote], quote) == Some(("", 1));
    assert StringBody(body, quote) == Some(([inside] + "", 2));
    assert [inside] + "" == [inside];
    LexOne(s, operand, Token(Str, [inside]));
  }

  /** `true`, `false` and `null` are words of their own; any other word is a name. */
  lemma WordsRead(w: string, operand: bool)
    requires w != "" && IsIdentStart(w[0]) && forall c :: c in w ==> IsIdentChar(c)
    ensures LexFrom(w, operand) == Some([
              if w == "true" || w == "false" then Token(Bool, w) else if w == "null" then Token(NullLit, w) else Token(Ident, w),
              EOF_TOKEN])
  {
    WholeRun(w);
    assert w[..|w|] == w;
    LexOne(w, operand, Word(w));
  }

  lemma {:induction false} WholeRun(w: string)
    requires forall c :: c in w ==> IsIdentChar(c)
    ensures IdentRun(w) == |w|
  {
    if w != "" {
      assert w[0] in w;
      WholeRun(w[1..]);
    }
  }

  /** A `-` right before a digit: a sign where an operand is expected, an operator elsewhere. */
  lemma SignsRead(d: char)
    requires '0' <= d <= '9'
    ensures LexFrom("-" + [d], true) == Some([Token(Int, "-" + [d]), EOF_TOKEN])
    ensures LexFrom("-" + [d], false) == Some([Token(Minus, "-"), Token(Int, [d]), EOF_TOKEN])
  {
    var s := "-" + [d];
    assert s == ['-', d] && s[1..] == [d] && [d][1..] == "";
    assert DigitRun([d]) == 1 && WholePart(s) == 2 && WholePart([d]) == 1;
    assert s[..2] == s && [d][..1] == [d] && s[..1] == "-";
    LexOne(s, true, Token(Int, s));
    LexOne([d], OperandExpected(Minus), Token(Int, [d]));
    assert NextToken(s, false) == Some((Token(Minus, "-"), 1));
    assert [Token(Minus, "-")] + [Token(Int, [d]), EOF_TOKEN] == [Token(Minus, "-"), Token(Int, [d]), EOF_TOKEN];
  }

  /** An operand is expected at the start and behind every token but those that end one, a brace, and a member access. */
  lemma OperandsExpected(k: Kind)
    ensures OperandExpected(k) <==>
            k !in {Ident, Str, Int, Float, Bool, NullLit, RParen, RBracket, RBrace, LBrace, Dot, OptionalChain, EOF}
  {
  }

  /** Digits count by tens, the last by one, and a sign negates. */
  lemma NumbersMean(s: string, d: char)
    requires '0' <= d <= '9'
    ensures ParseInt64("0") == Some(0) && ParseInt64("1") == Some(1) && ParseInt64("9") == Some(9)
    ensures ParseInt64("10") == Some(10) && ParseInt64("256") == Some(256) && ParseInt64("-42") == Some(-42)
    ensures Magnitude(s + [d]) == 10 * Magnitude(s) + Magnitude([d])
  {
    assert (s + [d])[..|s|] == s && [d][..0] == "";
    OneDigit('0');
    OneDigit('1');
    OneDigit('2');
    OneDigit('4');
    OneDigit('9');
    TwoDigits('1', '0');
    TwoDigits('2', '5');
    TwoDigits('4', '2');
    assert "256"[..2] == "25" && "-42"[1..] == "42";
  }

  lemma OneDigit(d: char)
    requires '0' <= d <= '9'
    ensures Magnitude([d]) == d as int - '0' as int
  {
    assert [d][..0] == "";
  }

  lemma TwoDigits(c: char, d: char)
    requires '0' <= c <= '9' && '0' <= d <= '9'
    ensures Magnitude([c, d]) == 10 * (c as int - '0' as int) + (d as int - '0' as int)
  {
    assert [c, d][..1] == [c];
    OneDigit(c);
  }

  /** White space between tokens: blanks, tabs, line ends, and the bytes 0x85 and 0xA0; nothing else is skipped. */
  lemma SpacesSkipped(c: char, s: string, operand: bool)
    ensures c in " \t\n\r" || c as int in {0x0B, 0x0C, 0x85, 0xA0} ==> LexFrom([c] + s, operand) == LexFrom(s, operand)
    ensures !(c in " \t\n\r" || c as int in {0x0B, 0x0C, 0x85, 0xA0}) ==>
              LexFrom([c], operand) == None || exists t :: LexFrom([c], operand) == Some([t, EOF_TOKEN])
  {
    assert ([c] + s)[1..] == s;
    if !IsSpace(c) && NextToken([c], operand).Some? {
      var (t, n) := NextToken([c], operand).value;
      assert n == |[c]|;
      LexOne([c], operand, t);
    }
  }
}
