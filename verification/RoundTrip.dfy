/** Printing, lexing and parsing return the expression. */
module RoundTrip {
  import opened Options
  import opened Tokens
  import opened Spelling
  import opened Syntax
  import opened Grammar
  import opened Recognition
  import opened Parsing
  import opened Printing
  import opened Rendering
  import opened Produced

  // ---------- Printing and reading ----------

  ghost function Print(e: Expr): string {
    var ts := Flatten(Write(e, 0, EOF));
    Render(ts, Spacing(ts, true))
  }

  /** Every legible text of a well-formed tree denotes the tree's expression, however it is spaced and parenthesised. */
  lemma AnyTextReadsBack(c: Cst, seps: seq<string>)
    requires Full(c, 0, EOF) && |seps| == |Flatten(c)| && Legible(Flatten(c), seps, true)
    ensures Meaning(Render(Flatten(c), seps)) == Some(Abstract(c))
  {
    hide LexFrom, Parse, Fits, Full, Abstract, Legible, Flatten;
    LexRender(Flatten(c), seps, true);
    ParseFull(c, 0, [EOF_TOKEN]);
  }

  /** The printed text of an expression reads back as that expression. */
  lemma PrintedReadsBack(e: Expr)
    requires Printable(e)
    ensures Meaning(Print(e)) == Some(e)
  {
    hide Meaning, Write, Fits, Full, Abstract, Legible, Flatten, Printable, Spelled, WellSpelled, SignsPlaced;
    var c := Write(e, 0, EOF);
    WriteFaithful(e, 0, EOF);
    TreeWritten(c);
    SpacingLegible(Flatten(c), true);
    AnyTextReadsBack(c, Spacing(Flatten(c), true));
  }

  // ---------- What is read can be printed ----------

  /** Every expression the parser produces can be printed. */
  lemma ReadIsPrintable(input: string)
    requires Meaning(input).Some?
    ensures Printable(Meaning(input).value)
  {
    hide LexFrom, Parse, Flatten, Abstract, Fits, WellSpelled;
    var ts := LexFrom(input, true).value;
    LexedWell(input, true);
    WellSpelledIsCanonical(ts);
    ParseSound(0, ts);
    var (c, rest) := Parse(0, ts).value;
    Split2(Flatten(c), rest);
    InnerPrintable(c, 0, EOF);
  }

  /** Whatever a text was parsed to, printing it and parsing again changes nothing. */
  lemma ReadPrintRead(input: string)
    requires Meaning(input).Some?
    ensures Meaning(Print(Meaning(input).value)) == Meaning(input)
  {
    ReadIsPrintable(input);
    PrintedReadsBack(Meaning(input).value);
  }

  /** The expressions that some text denotes are exactly those that can be printed. */
  lemma DenotableIffPrintable(e: Expr)
    ensures (exists input :: Meaning(input) == Some(e)) <==> Printable(e)
  {
    if Printable(e) {
      PrintedReadsBack(e);
    }
    if input :| Meaning(input) == Some(e) {
      ReadIsPrintable(input);
    }
  }

  // ---------- Parentheses ----------

  /** Nothing ends, before a token that continues an operand of its level, in an operator or an operand of that level. */
  lemma {:induction false} NotClosed(c: Cst, k: nat, f: Kind)
    requires 2 <= k <= Level(f) <= 10
    ensures !Full(c, k, f)
    decreases c, 12 - k
  {
    hide Fits, Full;
    if Full(c, k, f) {
      FullClosed(c, k, f);
      if OwnLevel(c) != k {
        FitsInner(c, k, f);
        NotClosed(c, k + 1, f);
      } else {
        RightEnd(c, k, f);
        NotClosed(if c.CNot? then c.operand else c.right, if c.CNot? then 9 else k + 1, f);
      }
    }
  }

  lemma FullClosed(c: Cst, k: nat, f: Kind)
    requires k <= 11 && Full(c, k, f)
    ensures Fits(c, k, f) && (IsLoop(k) ==> Level(f) != k) && Level(f) != 9
  {
  }

  lemma RightEnd(c: Cst, k: nat, f: Kind)
    requires 2 <= k <= 9 && Fits(c, k, f) && OwnLevel(c) == k
    ensures if c.CNot? then k == 9 && Full(c.operand, 9, f) else c.CBinary? && Full(c.right, k + 1, f)
  {
  }

  /** What a whole expression can be written as before f ends there. */
  lemma {:induction false} FullEnds(c: Cst, f: Kind)
    requires Full(c, 0, f)
    ensures Ends(Abstract(c), f)
    decreases c
  {
    hide Fits, Full;
    if Level(f) <= 10 {
      FullClosed(c, 0, f);
      if OwnLevel(c) != 0 {
        FitsInner(c, 0, f);
        FullFits(c, 1, f);
        if OwnLevel(c) == 1 {
          LastBranch(c, f);
          FullEnds(c.els, f);
        } else {
          FitsInner(c, 1, f);
          NotClosed(c, 2, f);
        }
      }
    }
  }

  lemma LastBranch(c: Cst, f: Kind)
    requires c.CTernary? && Fits(c, 1, f)
    ensures Full(c.els, 0, f)
  {
  }

  lemma LambdaBody(c: Cst, f: Kind)
    requires c.CLambda? && Fits(c, 11, f)
    ensures Full(c.body, 0, f)
  {
  }

  /** Where printing adds parentheses, every way of writing the expression there has them. */
  lemma ParensNeeded(c: Cst, k: nat, f: Kind)
    requires k <= 10 && Fits(c, k, f) && Spelled(c) && !Bare(Abstract(c), k, f)
    ensures c.CParen?
  {
    hide Fits, Full;
    FitsAbove(c, k, f);
    FitsOwn(c, k, f);
    if c.CBinary? {
      OperatorKept(c.tok);
    } else if c.CDot? {
      DotBeforeCall(c, f);
    } else if c.CTernary? {
      LastBranch(c, f);
      FullEnds(c.els, f);
    } else if c.CLambda? {
      LambdaBody(c, f);
      FullEnds(c.body, f);
    }
  }

  lemma WrittenBare(e: Expr, k: nat, f: Kind)
    ensures Write(e, k, f).CParen? <==> !Bare(e, k, f)
  {
  }

  /** Printing adds parentheses around an operand if and only if there is no way to write it there without them. */
  lemma ParensIffNeeded(e: Expr, k: nat, f: Kind)
    requires Printable(e) && k <= 10 && Before(k, f)
    ensures Write(e, k, f).CParen? <==> forall c :: Faithful(c, e, k, f) ==> c.CParen?
  {
    hide Printable, Fits, Full, Spelled, Abstract, Before, Level, Bare, WriteBare;
    WrittenBare(e, k, f);
    if Bare(e, k, f) {
      WriteFaithful(e, k, f);
    } else {
      forall c | Faithful(c, e, k, f) ensures c.CParen? {
        ParensNeeded(c, k, f);
      }
    }
  }

  lemma OperatorKept(t: Token)
    requires IsBinary(t.kind) && WellSpelled(t) && t.kind != NullCoalesce
    ensures OperatorKind(Operator(t)) == Some(t.kind)
  {
    OperatorPrintable(t);
    if t.kind == Or || t.kind == And {
      assert t.value == [t.value[0], t.value[1]];
    }
  }

  lemma DotBeforeCall(c: Cst, f: Kind)
    requires c.CDot? && Fits(c, 10, f)
    ensures f != LParen
  {
  }
}
