/** Writing tokens so that lexing reads them back. */
module Spelling {
  import opened Options
  import opened Tokens

  // Escapes, signs, and where white space is needed.

  function Escape(v: string): string {
    if v == "" then ""
    else (if v[0] == '\\' then "\\\\" else if v[0] == '"' then "\\\"" else if v[0] == '\n' then "\\n"
          else if v[0] == '\t' then "\\t" else [v[0]]) + Escape(v[1..])
  }

  function Spell(t: Token): string {
    if t.kind == Str then "\"" + Escape(t.value) + "\"" else t.value
  }

  predicate AllDigits(s: string) {
    forall i :: 0 <= i < |s| ==> IsDigit(s[i])
  }

  predicate Digits(s: string) {
    s != "" && AllDigits(s)
  }

  function Unsigned(s: string): string {
    if s != "" && s[0] == '-' then s[1..] else s
  }

  predicate IntText(s: string) {
    Digits(Unsigned(s))
  }

  /** Digits, a point, digits, with the point at position k. */
  predicate PointAt(s: string, k: nat) {
    k < |s| && Digits(s[..k]) && s[k] == '.' && Digits(s[k + 1..])
  }

  ghost predicate FloatText(s: string) {
    exists k :: PointAt(Unsigned(s), k)
  }

  /** What the lexer can produce. */
  ghost predicate WellSpelled(t: Token) {
    match t.kind
    case Str => true
    case Ident => t.value != "" && IsIdentStart(t.value[0]) && (forall c :: c in t.value ==> IsIdentChar(c)) && Word(t.value) == t
    case Bool => t.value == "true" || t.value == "false"
    case NullLit => t.value == "null"
    case Int => IntText(t.value)
    case Float => FloatText(t.value)
    case EOF => false
    case _ =>
      || (|t.value| == 2 && TwoCharOp(t.value[0], t.value[1]) == Some(t.kind))
      || (|t.value| == 1 && OneCharOp(t.value[0]) == Some(t.kind))
  }

  predicate IsNumber(t: Token) {
    t.kind == Int || t.kind == Float
  }

  predicate Negative(t: Token) {
    IsNumber(t) && t.value != "" && t.value[0] == '-'
  }

  /** The token ends where this text begins; `operand` says whether one was expected at the token. */
  predicate Stops(t: Token, next: string, operand: bool) {
    next == "" ||
    match t.kind
    case Str => true
    case Ident => !IsIdentChar(next[0])
    case Bool => !IsIdentChar(next[0])
    case NullLit => !IsIdentChar(next[0])
    case Int => !IsDigit(next[0]) && !(next[0] == '.' && |next| > 1 && IsDigit(next[1]))
    case Float => !IsDigit(next[0])
    case _ => |t.value| == 1 ==> TwoCharOp(t.value[0], next[0]).None? && !(t.value == "-" && IsDigit(next[0]) && operand)
  }

  // ---------- One token ----------

  lemma {:induction false} DigitRunOf(ds: string, next: string)
    requires AllDigits(ds) && (next == "" || !IsDigit(next[0]))
    ensures DigitRun(ds + next) == |ds|
  {
    if ds == "" {
      assert ds + next == next;
    } else {
      assert (ds + next)[1..] == ds[1..] + next;
      DigitRunOf(ds[1..], next);
    }
  }

  lemma {:induction false} IdentRunOf(word: string, next: string)
    requires (forall c :: c in word ==> IsIdentChar(c)) && (next == "" || !IsIdentChar(next[0]))
    ensures IdentRun(word + next) == |word|
  {
    if word == "" {
      assert word + next == next;
    } else {
      assert (word + next)[1..] == word[1..] + next;
      assert word[0] in word;
      IdentRunOf(word[1..], next);
    }
  }

  lemma {:induction false} StringBodyOf(v: string, next: string)
    ensures StringBody(Escape(v) + "\"" + next, '"') == Some((v, |Escape(v)| + 1))
  {
    var s := Escape(v) + "\"" + next;
    if v == "" {
      assert s == "\"" + next;
    } else {
      StringBodyOf(v[1..], next);
      var rest := Escape(v[1..]) + "\"" + next;
      EscapeFirst(v);
      var head := Escape(v)[..|Escape(v)| - |Escape(v[1..])|];
      assert s == head + rest;
      assert s[|head|..] == rest && s[0] == head[0];
      assert [v[0]] + v[1..] == v;
    }
  }

  /** A character is written as itself or as an escape that stands for it. */
  lemma EscapeFirst(v: string)
    requires v != ""
    ensures var n := |Escape(v)| - |Escape(v[1..])|;
            && (n == 1 || n == 2) && Escape(v) == Escape(v)[..n] + Escape(v[1..])
            && (n == 1 ==> Escape(v)[0] == v[0] && v[0] != '\\' && v[0] != '"')
            && (n == 2 ==> Escape(v)[0] == '\\' && Unescape(Escape(v)[1]) == [v[0]])
  {
  }

  lemma WholePartOf(s: string, next: string)
    requires IntText(s) && (next == "" || !IsDigit(next[0]))
    ensures WholePart(s + next) == |s|
  {
    var u := Unsigned(s);
    DigitRunOf(u, next);
    if s[0] == '-' {
      assert (s + next)[1..] == u + next;
    }
  }

  lemma IntToken(s: string, next: string)
    requires IntText(s) && Stops(Token(Int, s), next, true)
    ensures Number(s + next) == (Token(Int, s), |s|)
  {
    WholePartOf(s, next);
    assert (s + next)[..|s|] == s;
    assert forall i :: |s| <= i < |s + next| ==> (s + next)[i] == next[i - |s|];
  }

  lemma FloatToken(s: string, next: string)
    requires FloatText(s) && Stops(Token(Float, s), next, true)
    ensures Number(s + next) == (Token(Float, s), |s|)
  {
    var u := Unsigned(s);
    var k: nat :| PointAt(u, k);
    var m := |s| - |u| + k;
    assert s[m + 1..] == u[k + 1..];
    assert Unsigned(s[..m]) == u[..k];
    FloatTokenAt(s, next, m);
  }

  lemma FloatTokenAt(s: string, next: string, m: nat)
    requires m < |s| && IntText(s[..m]) && s[m] == '.' && Digits(s[m + 1..])
    requires next == "" || !IsDigit(next[0])
    ensures Number(s + next) == (Token(Float, s), |s|)
  {
    var whole, fraction, after := s[..m], s[m + 1..], s[m..] + next;
    assert s + next == whole + after;
    assert after[0] == '.';
    WholePartOf(whole, after);
    DigitRunOf(fraction, next);
    assert (s + next)[m + 1..] == fraction + next;
    assert (s + next)[m + 1] == fraction[0];
    assert (s + next)[..|s|] == s;
  }

  lemma WordToken(word: string, next: string, operand: bool)
    requires word != "" && IsIdentStart(word[0]) && (forall c :: c in word ==> IsIdentChar(c))
    requires next == "" || !IsIdentChar(next[0])
    ensures NextToken(word + next, operand) == Some((Word(word), |word|))
  {
    IdentRunOf(word, next);
    assert (word + next)[..|word|] == word;
  }

  lemma NumberToken(t: Token, next: string, operand: bool)
    requires IsNumber(t) && WellSpelled(t) && Stops(t, next, operand) && (Negative(t) ==> operand)
    ensures NextToken(t.value + next, operand) == Some(Number(t.value + next))
  {
    var s := t.value + next;
    if s[0] == '-' {
      assert s[1] == t.value[1];
      assert IsDigit(t.value[1]);
    }
  }

  predicate IsOperator(t: Token) {
    t.kind !in {Str, Ident, Bool, NullLit, Int, Float, EOF}
  }

  lemma TwoCharToken(t: Token, next: string, operand: bool)
    requires WellSpelled(t) && IsOperator(t) && |t.value| == 2
    ensures !IsSpace(t.value[0]) && NextToken(t.value + next, operand) == Some((t, 2))
  {
    var s := t.value + next;
    assert s[..2] == t.value;
  }

  lemma OneCharToken(t: Token, next: string, operand: bool)
    requires WellSpelled(t) && IsOperator(t) && |t.value| == 1 && Stops(t, next, operand)
    ensures !IsSpace(t.value[0]) && NextToken(t.value + next, operand) == Some((t, 1))
  {
    var s := t.value + next;
    assert t.value == [t.value[0]];
    assert next != "" ==> s[1] == next[0];
  }

  lemma OperatorToken(t: Token, next: string, operand: bool)
    requires WellSpelled(t) && Stops(t, next, operand) && IsOperator(t)
    ensures t.value != "" && !IsSpace(t.value[0]) && NextToken(t.value + next, operand) == Some((t, |t.value|))
  {
    hide NextToken, Stops;
    if |t.value| == 2 {
      TwoCharToken(t, next, operand);
    } else {
      OneCharToken(t, next, operand);
    }
  }

  lemma IntBack(t: Token, next: string, operand: bool)
    requires t.kind == Int && WellSpelled(t) && Stops(t, next, operand) && (Negative(t) ==> operand)
    ensures t.value != "" && !IsSpace(t.value[0]) && NextToken(t.value + next, operand) == Some((t, |t.value|))
  {
    hide NextToken, Number;
    NumberToken(t, next, operand);
    IntToken(t.value, next);
  }

  lemma FloatBack(t: Token, next: string, operand: bool)
    requires t.kind == Float && WellSpelled(t) && Stops(t, next, operand) && (Negative(t) ==> operand)
    ensures t.value != "" && !IsSpace(t.value[0]) && NextToken(t.value + next, operand) == Some((t, |t.value|))
  {
    hide NextToken, Number;
    NumberToken(t, next, operand);
    FloatToken(t.value, next);
  }

  /** A well-spelled token that stops where the following text begins is read back as itself. */
  lemma ReadsBack(t: Token, next: string, operand: bool)
    requires WellSpelled(t) && Stops(t, next, operand) && (Negative(t) ==> operand)
    ensures Spell(t) != "" && !IsSpace(Spell(t)[0])
    ensures NextToken(Spell(t) + next, operand) == Some((t, |Spell(t)|))
  {
    hide NextToken, WellSpelled, Stops;
    match t.kind
    case Str => StrBack(t, next, operand);
    case Ident => WordBack(t, next, operand);
    case Bool => WordBack(t, next, operand);
    case NullLit => WordBack(t, next, operand);
    case Int => IntBack(t, next, operand);
    case Float => FloatBack(t, next, operand);
    case EOF => NeverSpelled(t);
    case _ => OperatorToken(t, next, operand);
  }

  lemma NeverSpelled(t: Token)
    ensures WellSpelled(t) ==> t.kind != EOF
  {
  }

  lemma StrBack(t: Token, next: string, operand: bool)
    requires t.kind == Str
    ensures Spell(t) != "" && !IsSpace(Spell(t)[0]) && NextToken(Spell(t) + next, operand) == Some((t, |Spell(t)|))
  {
    hide StringBody, Escape;
    StringBodyOf(t.value, next);
    assert (Spell(t) + next)[1..] == Escape(t.value) + "\"" + next;
  }

  lemma WordBack(t: Token, next: string, operand: bool)
    requires t.kind in {Ident, Bool, NullLit} && WellSpelled(t) && Stops(t, next, operand)
    ensures t.value != "" && !IsSpace(t.value[0]) && NextToken(t.value + next, operand) == Some((t, |t.value|))
  {
    hide NextToken;
    WordToken(t.value, next, operand);
  }

  // ---------- Token sequences ----------

  /** Each token followed by its separator. */
  function Render(ts: seq<Token>, seps: seq<string>): string
    requires |seps| == |ts|
  {
    if ts == [] then "" else Spell(ts[0]) + (seps[0] + Render(ts[1..], seps[1..]))
  }

  predicate Blank(s: string) {
    forall c :: c in s ==> IsSpace(c)
  }

  /** Well-spelled tokens, signs only where operands are expected, whitespace wherever a token would run on. */
  ghost predicate Legible(ts: seq<Token>, seps: seq<string>, operand: bool)
    requires |seps| == |ts|
  {
    ts == [] ||
    (&& WellSpelled(ts[0]) && (Negative(ts[0]) ==> operand) && Blank(seps[0])
     && Stops(ts[0], seps[0] + Render(ts[1..], seps[1..]), operand)
     && Legible(ts[1..], seps[1..], OperandExpected(ts[0].kind)))
  }

  lemma {:induction false} SkipBlank(sep: string, s: string, operand: bool)
    requires Blank(sep)
    ensures LexFrom(sep + s, operand) == LexFrom(s, operand)
  {
    if sep == "" {
      assert sep + s == s;
    } else {
      assert (sep + s)[1..] == sep[1..] + s;
      assert sep[0] in sep;
      SkipBlank(sep[1..], s, operand);
    }
  }

  /** Lexing reads back any legible rendering, however it is spaced. */
  lemma {:induction false} LexRender(ts: seq<Token>, seps: seq<string>, operand: bool)
    requires |seps| == |ts| && Legible(ts, seps, operand)
    ensures LexFrom(Render(ts, seps), operand) == Some(ts + [EOF_TOKEN])
  {
    hide WellSpelled, Stops, NextToken, Spell, Negative;
    if ts == [] {
      assert ts + [EOF_TOKEN] == [EOF_TOKEN];
    } else {
      var rest := Render(ts[1..], seps[1..]);
      var next := seps[0] + rest;
      ReadsBack(ts[0], next, operand);
      var s := Spell(ts[0]) + next;
      assert s[|Spell(ts[0])|..] == next;
      SkipBlank(seps[0], rest, OperandExpected(ts[0].kind));
      LexRender(ts[1..], seps[1..], OperandExpected(ts[0].kind));
      assert [ts[0]] + (ts[1..] + [EOF_TOKEN]) == ts + [EOF_TOKEN];
    }
  }

  /** Signs stand where operands are expected. */
  ghost predicate SignsPlaced(ts: seq<Token>, operand: bool) {
    forall i :: 0 <= i < |ts| && Negative(ts[i]) ==> OperandBefore(ts, i, operand)
  }

  predicate OperandBefore(ts: seq<Token>, i: nat, operand: bool)
    requires i < |ts|
  {
    if i == 0 then operand else OperandExpected(ts[i - 1].kind)
  }

  /** The least spacing: a blank only where the token before it would run on. */
  ghost function Spacing(ts: seq<Token>, operand: bool): (seps: seq<string>)
    ensures |seps| == |ts|
  {
    if ts == [] then []
    else
      var seps := Spacing(ts[1..], OperandExpected(ts[0].kind));
      [if Stops(ts[0], Render(ts[1..], seps), operand) then "" else " "] + seps
  }

  lemma SignsLater(ts: seq<Token>, operand: bool)
    requires ts != [] && SignsPlaced(ts, operand)
    ensures SignsPlaced(ts[1..], OperandExpected(ts[0].kind))
    ensures Negative(ts[0]) ==> operand
  {
    assert Negative(ts[0]) ==> OperandBefore(ts, 0, operand);
    forall i | 0 <= i < |ts[1..]| && Negative(ts[1..][i]) ensures OperandBefore(ts[1..], i, OperandExpected(ts[0].kind)) {
      assert ts[1..][i] == ts[i + 1];
      assert OperandBefore(ts, i + 1, operand);
    }
  }

  lemma StopsAtBlank(t: Token, text: string, operand: bool)
    requires WellSpelled(t)
    ensures Stops(t, " " + text, operand)
  {
  }

  lemma LegibleMore(ts: seq<Token>, sep: string, seps: seq<string>, operand: bool)
    requires ts != [] && |seps| == |ts| - 1 && Legible(ts[1..], seps, OperandExpected(ts[0].kind))
    requires WellSpelled(ts[0]) && (Negative(ts[0]) ==> operand) && Blank(sep)
    requires Stops(ts[0], sep + Render(ts[1..], seps), operand)
    ensures Legible(ts, [sep] + seps, operand)
  {
    assert ([sep] + seps)[1..] == seps;
  }

  lemma {:induction false} SpacingLegible(ts: seq<Token>, operand: bool)
    requires (forall t :: t in ts ==> WellSpelled(t)) && SignsPlaced(ts, operand)
    ensures Legible(ts, Spacing(ts, operand), operand)
  {
    hide Stops, WellSpelled;
    if ts != [] {
      SignsLater(ts, operand);
      SpacingLegible(ts[1..], OperandExpected(ts[0].kind));
      var seps := Spacing(ts[1..], OperandExpected(ts[0].kind));
      var text := Render(ts[1..], seps);
      var sep := if Stops(ts[0], text, operand) then "" else " ";
      assert "" + text == text;
      assert ts[0] in ts;
      StopsAtBlank(ts[0], text, operand);
      LegibleMore(ts, sep, seps, operand);
    }
  }
}
