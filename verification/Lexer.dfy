/**
 * The lexer as a cursor over its input. Every method reads what the specification reads at that place, and leaves the
 * cursor behind it.
 */
module Lexing {
  import opened Options
  import opened Tokens

  class Lexer {
    const input: string
    var pos: nat
    var tokens: seq<Token>

    constructor (input: string)
      ensures this.input == input && pos == 0 && tokens == []
    {
      this.input := input;
      pos, tokens := 0, [];
    }

    predicate OperandContext()
      reads this
    {
      tokens == [] || OperandExpected(tokens[|tokens| - 1].kind)
    }

    /** The rest of the input lexes to what is still missing. */
    ghost predicate OnTrack(result: Option<seq<Token>>)
      reads this
    {
      pos <= |input| && result == After(tokens, LexFrom(input[pos..], OperandContext()))
    }

    method Lex() returns (r: Option<seq<Token>>)
      requires pos == 0 && tokens == []
      modifies this
      ensures r == LexFrom(input, true)
    {
      hide NextToken, StringBody, Number;
      ghost var result := LexFrom(input, true);
      assert input[0..] == input;
      AfterNothing(result);
      while pos < |input|
        invariant OnTrack(result)
        decreases |input| - pos
      {
        if IsSpace(input[pos]) {
          assert input[pos..][1..] == input[pos + 1..];
          pos := pos + 1;
          continue;
        }
        ghost var s, operand, tokens0, pos0 := input[pos..], OperandContext(), tokens, pos;
        var ok := LexToken();
        if !ok {
          return None;
        }
        assert s[pos - pos0..] == input[pos..];
        Advance(s, operand, tokens0, tokens[|tokens0|], pos - pos0);
      }
      assert input[pos..] == "";
      tokens := tokens + [EOF_TOKEN];
      return Some(tokens);
    }

    /** The branches of the loop body that read a token. */
    method LexToken() returns (ok: bool)
      requires pos < |input| && !IsSpace(input[pos])
      modifies this
      ensures ok <==> NextToken(input[old(pos)..], old(OperandContext())).Some?
      ensures ok ==> var (t, n) := NextToken(input[old(pos)..], old(OperandContext())).value;
                     tokens == old(tokens) + [t] && pos == old(pos) + n
      ensures !ok ==> tokens == old(tokens)
    {
      var ch := input[pos];
      ghost var s := input[pos..];
      if ch == '"' || ch == '\'' {
        assert s[1..] == input[pos + 1..];
        ok := LexString(ch);
      } else if IsDigit(ch) {
        LexNumber();
        ok := true;
      } else if IsIdentStart(ch) {
        LexIdent();
        ok := true;
      } else if pos + 1 < |input| && TwoCharOp(ch, input[pos + 1]).Some? {
        assert s[..2] == input[pos..pos + 2];
        Emit(TwoCharOp(ch, input[pos + 1]).value, input[pos..pos + 2]);
        ok := true;
      } else if ch == '-' && pos + 1 < |input| && IsDigit(input[pos + 1]) && OperandContext() {
        LexNumber();
        ok := true;
      } else if OneCharOp(ch).Some? {
        Emit(OneCharOp(ch).value, [ch]);
        ok := true;
      } else {
        ok := false;
      }
    }

    method Emit(kind: Kind, val: string)
      modifies this`pos, this`tokens
      ensures tokens == old(tokens) + [Token(kind, val)] && pos == old(pos) + |val|
    {
      tokens := tokens + [Token(kind, val)];
      pos := pos + |val|;
    }

    method LexString(quote: char) returns (ok: bool)
      requires pos < |input| && input[pos] == quote
      modifies this`pos, this`tokens
      ensures ok <==> StringBody(input[old(pos) + 1..], quote).Some?
      ensures ok ==> var (v, n) := StringBody(input[old(pos) + 1..], quote).value;
                     tokens == old(tokens) + [Token(Str, v)] && pos == old(pos) + 1 + n
      ensures !ok ==> tokens == old(tokens)
    {
      hide StringBody, BodyAfter;
      pos := pos + 1;
      ghost var start := pos;
      ghost var whole := StringBody(input[start..], quote);
      BodyAfterNothing(whole);
      var sb := "";
      while pos < |input|
        invariant start <= pos <= |input| && tokens == old(tokens)
        invariant whole == BodyAfter(sb, pos - start, StringBody(input[pos..], quote))
        decreases |input| - pos
      {
        var ch := input[pos];
        if ch == '\\' && pos + 1 < |input| {
          assert input[pos..][2..] == input[pos + 2..];
          BodyEscape(sb, pos - start, input[pos..], quote);
          sb := sb + Unescape(input[pos + 1]);
          pos := pos + 2;
          continue;
        }
        if ch == quote {
          BodyClose(sb, pos - start, input[pos..], quote);
          pos := pos + 1;
          tokens := tokens + [Token(Str, sb)];
          return true;
        }
        assert input[pos..][1..] == input[pos + 1..];
        BodyChar(sb, pos - start, input[pos..], quote);
        sb := sb + [ch];
        pos := pos + 1;
      }
      BodyUnterminated(sb, pos - start, input[pos..], quote);
      return false;
    }

    method SkipDigits()
      requires pos <= |input|
      modifies this`pos
      ensures pos == old(pos) + DigitRun(input[old(pos)..]) && pos <= |input|
    {
      ghost var start := pos;
      while pos < |input| && IsDigit(input[pos])
        invariant start <= pos <= |input|
        invariant DigitRun(input[start..]) == pos - start + DigitRun(input[pos..])
      {
        assert input[pos..][1..] == input[pos + 1..];
        pos := pos + 1;
      }
    }

    /** A point and the digits behind it, if a digit follows the point. */
    method SkipFraction() returns (found: bool)
      requires pos <= |input|
      modifies this`pos
      ensures var s := input[old(pos)..];
              && found == (|s| > 1 && s[0] == '.' && IsDigit(s[1]))
              && pos == old(pos) + if found then 1 + DigitRun(s[1..]) else 0
      ensures pos <= |input|
    {
      found := pos + 1 < |input| && input[pos] == '.' && IsDigit(input[pos + 1]);
      if found {
        assert input[pos..][1..] == input[pos + 1..];
        pos := pos + 1;
        SkipDigits();
      }
    }

    method LexNumber()
      requires pos < |input|
      modifies this`pos, this`tokens
      ensures var (t, n) := Number(input[old(pos)..]);
              tokens == old(tokens) + [t] && pos == old(pos) + n
    {
      hide StringBody, NextToken, LexFrom, DigitRun, IdentRun;
      var start := pos;
      ghost var s := input[start..];
      if input[pos] == '-' {
        pos := pos + 1;
        assert s[1..] == input[pos..];
      }
      SkipDigits();
      assert pos == start + WholePart(s);
      assert s[WholePart(s)..] == input[pos..];
      var isFloat := SkipFraction();
      assert s[..pos - start] == input[start..pos];
      tokens := tokens + [Token(if isFloat then Float else Int, input[start..pos])];
    }

    method LexIdent()
      requires pos < |input|
      modifies this`pos, this`tokens
      ensures var n := IdentRun(input[old(pos)..]);
              tokens == old(tokens) + [Word(input[old(pos)..][..n])] && pos == old(pos) + n
    {
      var start := pos;
      while pos < |input| && IsIdentChar(input[pos])
        invariant start <= pos <= |input| && tokens == old(tokens)
        invariant IdentRun(input[start..]) == pos - start + IdentRun(input[pos..])
      {
        assert input[pos..][1..] == input[pos + 1..];
        pos := pos + 1;
      }
      assert IdentRun(input[pos..]) == 0;
      assert input[start..][..pos - start] == input[start..pos];
      tokens := tokens + [Word(input[start..pos])];
    }
  }

  /** Tokens read before those still missing. */
  function After(tokens: seq<Token>, rest: Option<seq<Token>>): Option<seq<Token>> {
    if rest.None? then None else Some(tokens + rest.value)
  }

  lemma AfterNothing(rest: Option<seq<Token>>)
    ensures After([], rest) == rest
  {
    if rest.Some? {
      assert [] + rest.value == rest.value;
    }
  }

  /** Reading one token moves it from the front of what is missing to the end of what is there. */
  lemma Advance(s: string, operand: bool, tokens: seq<Token>, t: Token, n: nat)
    requires s != "" && !IsSpace(s[0]) && NextToken(s, operand) == Some((t, n))
    ensures After(tokens, LexFrom(s, operand)) == After(tokens + [t], LexFrom(s[n..], OperandExpected(t.kind)))
  {
    var rest := LexFrom(s[n..], OperandExpected(t.kind));
    if rest.Some? {
      assert tokens + ([t] + rest.value) == (tokens + [t]) + rest.value;
    }
  }

  /** Characters read before the rest of a string literal. */
  function BodyAfter(read: string, n: nat, rest: Option<(string, nat)>): Option<(string, nat)> {
    if rest.None? then None else Some((read + rest.value.0, n + rest.value.1))
  }

  lemma BodyAfterNothing(rest: Option<(string, nat)>)
    ensures BodyAfter("", 0, rest) == rest
  {
    if rest.Some? {
      assert "" + rest.value.0 == rest.value.0;
    }
  }

  lemma BodyAfterMore(read: string, more: string, n: nat, m: nat, rest: Option<(string, nat)>)
    ensures BodyAfter(read, n, BodyAfter(more, m, rest)) == BodyAfter(read + more, n + m, rest)
  {
    if rest.Some? {
      assert read + (more + rest.value.0) == (read + more) + rest.value.0;
    }
  }

  lemma BodyEscape(sb: string, n: nat, s: string, quote: char)
    requires |s| > 1 && s[0] == '\\'
    ensures BodyAfter(sb, n, StringBody(s, quote)) == BodyAfter(sb + Unescape(s[1]), n + 2, StringBody(s[2..], quote))
  {
    BodyAfterMore(sb, Unescape(s[1]), n, 2, StringBody(s[2..], quote));
  }

  lemma BodyClose(sb: string, n: nat, s: string, quote: char)
    requires s != "" && s[0] == quote && !(s[0] == '\\' && |s| > 1)
    ensures BodyAfter(sb, n, StringBody(s, quote)) == Some((sb, n + 1))
  {
    assert sb + "" == sb;
  }

  lemma BodyChar(sb: string, n: nat, s: string, quote: char)
    requires s != "" && s[0] != quote && !(s[0] == '\\' && |s| > 1)
    ensures BodyAfter(sb, n, StringBody(s, quote)) == BodyAfter(sb + [s[0]], n + 1, StringBody(s[1..], quote))
  {
    BodyAfterMore(sb, [s[0]], n, 1, StringBody(s[1..], quote));
  }

  lemma BodyUnterminated(sb: string, n: nat, s: string, quote: char)
    requires s == ""
    ensures BodyAfter(sb, n, StringBody(s, quote)) == None
  {
  }
}
