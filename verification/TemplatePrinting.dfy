/**
 * Printing template trees and parsing them back: a tree in normal form prints to a text whose segments are its own,
 * and they parse to the tree again.
 */
module TemplatePrinting {
  import opened Options
  import opened Templates
  import opened TemplateParsing

  // The trees in normal form are exactly those the parser returns, and each is returned for its printed text.

  // ---------- Printing ----------

  function PrintTag(tag: string): string {
    "{{ " + tag + " }}"
  }

  function Print(n: Node): string
    decreases n, 0
  {
    match n
    case TplText(t) => t
    case TplExpr(e) => PrintTag(e)
    case TplRaw(t) => PrintTag("raw") + t + RAW_END
    case TplEach(e, body) => PrintTag("#each " + e) + PrintAll(body) + PrintTag("/each")
    case TplIf(c, body, els) =>
      PrintTag("#if " + c) + PrintAll(body) + (if els == [] then "" else PrintTag("#else") + PrintAll(els)) + PrintTag("/if")
  }

  function PrintAll(ns: seq<Node>): string
    decreases ns, 1
  {
    if ns == [] then "" else Print(ns[0]) + PrintAll(ns[1..])
  }

  /** The segments of the printed text. */
  function Segments(n: Node): seq<Segment>
    decreases n, 0
  {
    match n
    case TplText(t) => [Text(t)]
    case TplExpr(e) => [Tag(e)]
    case TplRaw(t) => [Raw(t)]
    case TplEach(e, body) => [Tag("#each " + e)] + AllSegments(body) + [Tag("/each")]
    case TplIf(c, body, els) =>
      [Tag("#if " + c)] + AllSegments(body) + (if els == [] then [] else [Tag("#else")] + AllSegments(els)) + [Tag("/if")]
  }

  function AllSegments(ns: seq<Node>): seq<Segment>
    decreases ns, 1
  {
    if ns == [] then [] else Segments(ns[0]) + AllSegments(ns[1..])
  }

  // ---------- Normal form ----------

  predicate Lacks(s: string, p: string)
    requires p != ""
  {
    Index(s, p).None?
  }

  /** What can stand between the braces of a tag. */
  predicate TagText(t: string) {
    Trim(t) == t && Lacks(t, "}}")
  }

  /** Text, followed by a tag unless it ends the template. */
  predicate PlainText(t: string, last: bool) {
    t != "" && Lacks(t, "{{") && (last || t[|t| - 1] != '{')
  }

  /** Trees in normal form inside a block that ends with endTag; `last` when nothing follows. */
  predicate Normal(n: Node, endTag: string, last: bool)
    decreases n, 0
  {
    match n
    case TplText(t) => PlainText(t, last)
    case TplExpr(e) => TagText(e) && e != "raw" && Classify(e, endTag).Plain?
    case TplRaw(t) => Lacks(t, RAW_END)
    case TplEach(e, body) => e != "" && TagText(e) && AllNormal(body, "/each", false)
    case TplIf(c, body, els) => c != "" && TagText(c) && AllNormal(body, "/if", false) && AllNormal(els, "/if", false)
  }

  predicate AllNormal(ns: seq<Node>, endTag: string, last: bool)
    decreases ns, 1
  {
    ns == [] ||
    (&& Normal(ns[0], endTag, last && |ns| == 1)
     && (ns[0].TplText? && |ns| > 1 ==> !ns[1].TplText?)
     && AllNormal(ns[1..], endTag, last))
  }

  // ---------- First occurrences ----------

  /** Text that ends in no prefix of p, before p. */
  lemma {:induction false} IndexBehind(t: string, p: string, rest: string)
    requires p != "" && Lacks(t, p) && StartsWith(rest, p)
    requires forall i :: 0 <= i < |t| ==> !StartsWith(t[i..] + p, p)
    ensures Index(t + rest, p) == Some(|t|)
  {
    if t == "" {
      assert t + rest == rest;
    } else {
      assert !StartsWith(t[0..] + p, p) && t[0..] == t;
      assert (t + rest)[..|p|] == (t + p)[..|p|];
      assert (t + rest)[1..] == t[1..] + rest;
      forall i | 0 <= i < |t[1..]| ensures !StartsWith(t[1..][i..] + p, p) {
        assert t[1..][i..] == t[i + 1..];
      }
      IndexBehind(t[1..], p, rest);
    }
  }

  lemma {:induction false} LacksLater(t: string, p: string, i: nat)
    requires p != "" && Lacks(t, p) && i <= |t|
    ensures Lacks(t[i..], p) && !StartsWith(t[i..], p)
  {
    if i == 0 {
      assert t[0..] == t;
    } else {
      LacksLater(t[1..], p, i - 1);
      assert t[1..][i - 1..] == t[i..];
    }
  }

  /** A tag's text and the blank behind it. */
  lemma TagEnds(t: string, rest: string)
    requires Lacks(t, "}}")
    ensures Index(t + " " + "}}" + rest, "}}") == Some(|t| + 1)
  {
    var s := t + " ";
    forall i | 0 <= i < |s| ensures !StartsWith(s[i..] + "}}", "}}") && !StartsWith(s[i..], "}}") {
      if i < |t| {
        LacksLater(t, "}}", i);
        var u := s[i..] + "}}";
        assert s[i..] == t[i..] + " ";
        if |t| - i >= 2 {
          assert u[..2] == t[i..][..2] == s[i..][..2];
        } else {
          assert u[..2][1] == s[i..][..2][1] == ' ';
        }
      } else {
        assert s[i..] == " " && (s[i..] + "}}")[..2][0] == ' ';
      }
    }
    NeverStarts(s, "}}");
    IndexBehind(s, "}}", "}}" + rest);
    assert s + ("}}" + rest) == t + " " + "}}" + rest;
  }

  lemma {:induction false} NeverStarts(s: string, p: string)
    requires p != "" && forall i :: 0 <= i < |s| ==> !StartsWith(s[i..], p)
    ensures Lacks(s, p)
  {
    if s != "" {
      assert s[0..] == s;
      forall i | 0 <= i < |s[1..]| ensures !StartsWith(s[1..][i..], p) {
        assert s[1..][i..] == s[i + 1..];
      }
      NeverStarts(s[1..], p);
    }
  }

  /** Text before a tag. */
  lemma TextEnds(t: string, rest: string)
    requires PlainText(t, false) && StartsWith(rest, "{{")
    ensures Index(t + rest, "{{") == Some(|t|)
  {
    forall i | 0 <= i < |t| ensures !StartsWith(t[i..] + "{{", "{{") {
      LacksLater(t, "{{", i);
      var u := t[i..] + "{{";
      if |t| - i >= 2 {
        assert u[..2] == t[i..][..2];
      } else {
        assert u[0] == t[|t| - 1];
      }
    }
    IndexBehind(t, "{{", rest);
  }

  /** Raw text before its end: the closing tag overlaps with nothing but itself. */
  lemma RawEnds(t: string, rest: string)
    requires Lacks(t, RAW_END)
    ensures Index(t + RAW_END + rest, RAW_END) == Some(|t|)
  {
    forall i | 0 <= i < |t| ensures !StartsWith(t[i..] + RAW_END, RAW_END) {
      LacksLater(t, RAW_END, i);
      NoBorder(t[i..]);
    }
    IndexBehind(t, RAW_END, RAW_END + rest);
    assert t + (RAW_END + rest) == t + RAW_END + rest;
  }

  lemma NoBorder(u: string)
    requires u != "" && !StartsWith(u, RAW_END)
    ensures !StartsWith(u + RAW_END, RAW_END)
  {
    var w := u + RAW_END;
    if |u| >= 8 {
      assert w[..8] == u[..8];
    } else {
      var k := |u|;
      assert w[..8][k] == w[k] == '{' && w[k + 1] == '{';
      if k == 1 {
        assert w[..8][2] == w[2];
      }
    }
  }

  // ---------- Printing scans back ----------

  lemma {:induction false} TrimLeftBlank(t: string)
    ensures TrimLeft(" " + t) == TrimLeft(t)
  {
    assert (" " + t)[1..] == t && (" " + t)[..1] == " ";
  }

  lemma TrimRightBlank(t: string)
    ensures TrimRight(t + " ") == TrimRight(t)
  {
    assert (t + " ")[..|t|] == t && (t + " ")[|t|..] == " ";
  }

  /** A blank after a text makes no white space character at its start. */
  lemma BlankBehind(t: string)
    requires t != "" && LeadingSpace(t) == 0
    ensures LeadingSpace(t + " ") == 0
  {
    assert (t + " ")[..1] == t[..1];
    if |t| >= 2 {
      assert (t + " ")[..2] == t[..2];
    }
    if |t| >= 3 {
      assert (t + " ")[..3] == t[..3];
    }
  }

  lemma TrimBlanks(t: string)
    requires Trim(t) == t
    ensures Trim(" " + t + " ") == t
  {
    hide SpaceRune, LeadingSpace, TrailingSpace;
    TrimmedEnds(t);
    assert " " + t + " " == " " + (t + " ");
    TrimLeftBlank(t + " ");
    if t == "" {
      TrimLeftBlank("");
      assert " " + "" == t + " ";
    } else {
      TrimRightBlank(t);
      BlankBehind(t);
    }
  }

  /** Trimmed text starts and ends with no white space. */
  lemma TrimmedEnds(t: string)
    requires Trim(t) == t
    ensures LeadingSpace(t) == 0 && TrailingSpace(t) == 0
    ensures TrimLeft(t) == t && TrimRight(t) == t
  {
    hide SpaceRune, LeadingSpace, TrailingSpace;
    assert LeadingSpace(t) > 0 ==> |TrimLeft(t)| < |t|;
  }

  /** Trimming leaves no white space at either end, and trimming again changes nothing. */
  lemma {:induction false} TrimTwice(t: string)
    ensures Trim(Trim(t)) == Trim(t)
  {
    LeftTrimmed(t);
    RightTrimmed(TrimLeft(t));
  }

  lemma {:induction false} LeftTrimmed(t: string)
    ensures LeadingSpace(TrimLeft(t)) == 0
  {
    hide SpaceRune, LeadingSpace;
    if LeadingSpace(t) > 0 {
      LeftTrimmed(t[LeadingSpace(t)..]);
    }
  }

  lemma {:induction false} RightTrimmed(t: string)
    requires LeadingSpace(t) == 0
    ensures var r := TrimRight(t); TrimRight(r) == r && TrimLeft(r) == r
  {
    hide SpaceRune, LeadingSpace, TrailingSpace;
    if TrailingSpace(t) > 0 {
      var r := t[..|t| - TrailingSpace(t)];
      PrefixStarts(t, r);
      RightTrimmed(r);
    }
  }

  lemma PrefixStarts(t: string, r: string)
    requires r <= t && LeadingSpace(t) == 0
    ensures LeadingSpace(r) == 0
  {
    hide SpaceRune;
    assert |r| >= 1 ==> r[..1] == t[..1];
    assert |r| >= 2 ==> r[..2] == t[..2];
    assert |r| >= 3 ==> r[..3] == t[..3];
  }

  lemma SuffixEnds(t: string, n: nat)
    requires n <= |t| && TrailingSpace(t) == 0
    ensures TrailingSpace(t[n..]) == 0
  {
    hide SpaceRune, TrailingSpace;
    var r := t[n..];
    var k := TrailingSpace(r);
    if k > 0 {
      assert r[|r| - k..] == t[|t| - k..];
      SomeSpaceEnds(t, k);
    }
  }

  lemma SomeSpaceEnds(t: string, k: nat)
    requires 0 < k <= |t| && SpaceRune(t[|t| - k..])
    ensures TrailingSpace(t) > 0
  {
    assert k == |t[|t| - k..]| <= 3;
  }

  /** A printed tag scans to itself. */
  lemma ScanPrintedTag(t: string, rest: string)
    requires TagText(t) && t != "raw"
    ensures Scan(PrintTag(t) + rest) == [Tag(t)] + Scan(rest)
  {
    hide Index, Scan, Trim, ScanTag;
    var s := PrintTag(t) + rest;
    PrintedTagEnds(t, rest);
    IndexAtTag(s);
    ScanTagIs(s, |t| + 2);
  }

  lemma PrintedTagEnds(t: string, rest: string)
    requires TagText(t)
    ensures var s := PrintTag(t) + rest;
            && StartsWith(s, "{{") && Index(s[2..], "}}") == Some(|t| + 2)
            && Trim(s[2..2 + (|t| + 2)]) == t && s[|t| + 6..] == rest
  {
    hide Trim, Index;
    var s := PrintTag(t) + rest;
    TrimBlanks(t);
    TagEnds(t, rest);
    var inner := t + " " + "}}" + rest;
    assert s[2..] == " " + inner;
    BlankFirst(inner);
    assert s[2..2 + (|t| + 2)] == " " + t + " ";
  }

  lemma BlankFirst(inner: string)
    requires Index(inner, "}}").Some?
    ensures Index(" " + inner, "}}") == Some(Index(inner, "}}").value + 1)
  {
    var s := " " + inner;
    assert s[1..] == inner && s[..2][0] == ' ';
  }

  lemma ScanPrintedText(t: string, rest: string)
    requires PlainText(t, rest == "") && (rest == "" || StartsWith(rest, "{{"))
    ensures Scan(t + rest) == [Text(t)] + Scan(rest)
  {
    hide Index, ScanTag;
    if rest == "" {
      assert t + rest == t;
    } else {
      TextEnds(t, rest);
      ScanText(t + rest, |t|);
      assert (t + rest)[..|t|] == t && (t + rest)[|t|..] == rest;
      IndexAtTag(rest);
    }
  }

  lemma ScanPrintedRaw(t: string, rest: string)
    requires Lacks(t, RAW_END)
    ensures Scan(PrintTag("raw") + t + RAW_END + rest) == [Raw(t)] + Scan(rest)
  {
    hide Index, Scan, Trim, ScanTag;
    var behind := t + RAW_END + rest;
    var s := PrintTag("raw") + behind;
    assert PrintTag("raw") + t + RAW_END + rest == s;
    RawIsTag();
    PrintedTagEnds("raw", behind);
    IndexAtTag(s);
    ScanTagIs(s, 5);
    RawEnds(t, rest);
    assert behind[..|t|] == t && behind[|t| + 8..] == rest;
  }

  lemma RawIsTag()
    ensures TagText("raw")
  {
    Keyword("raw");
  }

  // ---------- The segments of a printed tree ----------

  lemma {:induction false} IndexIn(s: string, p: string, i: nat)
    requires p != "" && i <= |s| && StartsWith(s[i..], p)
    ensures Index(s, p).Some?
    decreases i
  {
    if i > 0 {
      assert s[1..][i - 1..] == s[i..];
      IndexIn(s[1..], p, i - 1);
    } else {
      assert s[0..] == s;
    }
  }

  /** A part of a text lacks what the text lacks. */
  lemma PartLacks(a: string, b: string, c: string, p: string)
    requires p != "" && Lacks(a + b + c, p)
    ensures Lacks(b, p)
  {
    var i := Index(b, p);
    if i.Some? {
      var s := a + b + c;
      assert s[|a| + i.value..][..|p|] == b[i.value..][..|p|];
      IndexIn(s, p, |a| + i.value);
      assert false;
    }
  }

  lemma TrimIsPart(t: string) returns (a: string, c: string)
    ensures t == a + Trim(t) + c
  {
    var l := TrimLeftPart(t);
    var r := TrimRightPart(TrimLeft(t));
    a, c := l, r;
    assert t == l + (Trim(t) + r);
  }

  lemma {:induction false} TrimLeftPart(t: string) returns (a: string)
    ensures t == a + TrimLeft(t)
  {
    hide SpaceRune, LeadingSpace;
    var n := LeadingSpace(t);
    if n > 0 {
      var b := TrimLeftPart(t[n..]);
      a := t[..n] + b;
    } else {
      a := "";
    }
  }

  lemma {:induction false} TrimRightPart(t: string) returns (c: string)
    ensures t == TrimRight(t) + c
  {
    hide SpaceRune, TrailingSpace;
    var n := TrailingSpace(t);
    if n > 0 {
      var b := TrimRightPart(t[..|t| - n]);
      c := b + t[|t| - n..];
    } else {
      c := "";
    }
  }

  /** Behind a blank, a text ends as it ends alone. */
  lemma KeywordEnds(keyword: string, c: string)
    requires keyword != "" && keyword[|keyword| - 1] == ' ' && c != "" && TrailingSpace(c) == 0
    ensures TrailingSpace(keyword + c) == 0
  {
    hide SpaceRune;
    var t := keyword + c;
    assert t[|keyword| - 1] == ' ';
    assert t[|t| - 1..] == c[|c| - 1..];
    if |c| >= 2 {
      assert t[|t| - 2..] == c[|c| - 2..];
    } else {
      NoBlankInside(t[|t| - 2..], 0);
    }
    if |c| >= 3 {
      assert t[|t| - 3..] == c[|c| - 3..];
    } else if |t| >= 3 {
      NoBlankInside(t[|t| - 3..], 2 - |c|);
    }
  }

  lemma NoBlankInside(s: string, i: nat)
    requires i < |s| && |s| >= 2 && s[i] == ' '
    ensures !SpaceRune(s)
  {
  }

  /** White space starts and ends with no visible ASCII character. */
  lemma SpaceEnds(s: string)
    requires SpaceRune(s)
    ensures s != "" && !('!' <= s[0] <= '~') && !('!' <= s[|s| - 1] <= '~')
  {
  }

  /** Tags of blocks: a keyword, a blank, and trimmed text. */
  lemma BlockTag(keyword: string, c: string)
    requires keyword == "#if " || keyword == "#each "
    requires c != "" && TagText(c)
    ensures TagText(keyword + c) && keyword + c != "raw"
    ensures Trim((keyword + c)[|keyword|..]) == c && StartsWith(keyword + c, keyword)
  {
    hide SpaceRune, LeadingSpace, TrailingSpace;
    var t := keyword + c;
    TrimmedEnds(c);
    KeywordEnds(keyword, c);
    VisibleStart(t);
    assert TrimLeft(t) == t && TrimRight(t) == t;
    assert t[|keyword|..] == c;
    forall i | 0 <= i < |t| ensures !StartsWith(t[i..], "}}") {
      if i >= |keyword| {
        LacksLater(c, "}}", i - |keyword|);
        assert t[i..] == c[i - |keyword|..];
      } else {
        assert t[i] == keyword[i] != '}';
        assert t[i..][..2][0] == t[i];
      }
    }
    NeverStarts(t, "}}");
  }

  lemma VisibleStart(t: string)
    requires t != "" && '!' <= t[0] <= '~'
    ensures LeadingSpace(t) == 0
  {
    hide SpaceRune, LeadingSpace;
    if LeadingSpace(t) > 0 {
      SpaceEnds(t[..LeadingSpace(t)]);
    }
  }

  lemma VisibleEnd(t: string)
    requires t != "" && '!' <= t[|t| - 1] <= '~'
    ensures TrailingSpace(t) == 0
  {
    hide SpaceRune, TrailingSpace;
    if TrailingSpace(t) > 0 {
      SpaceEnds(t[|t| - TrailingSpace(t)..]);
    }
  }

  lemma EndTags()
    ensures TagText("/if") && TagText("/each") && TagText("#else")
  {
    Keyword("/if");
    Keyword("/each");
    Keyword("#else");
  }

  lemma Keyword(t: string)
    requires t != "" && '!' <= t[0] <= '~' && '!' <= t[|t| - 1] <= '~' && '}' !in t
    ensures TagText(t)
  {
    hide SpaceRune, LeadingSpace, TrailingSpace;
    VisibleStart(t);
    VisibleEnd(t);
    NoBrace(t);
  }

  lemma {:induction false} NoBrace(t: string)
    requires '}' !in t
    ensures Lacks(t, "}}")
  {
    if t != "" {
      assert t[0] in t && (|t| >= 2 ==> t[..2][0] == t[0]);
      NoBrace(t[1..]);
    }
  }

  lemma StartsWithTag(n: Node, rest: string)
    requires !n.TplText?
    ensures StartsWith(Print(n) + rest, "{{")
  {
    assert (Print(n) + rest)[..2] == Print(n)[..2];
  }

  lemma TextAssoc(a: string, b: string, c: string)
    ensures a + b + c == a + (b + c)
  {
  }

  lemma SegAssoc(a: seq<Segment>, b: seq<Segment>, c: seq<Segment>)
    ensures a + b + c == a + (b + c)
  {
  }

  lemma {:induction false} ScanPrinted(n: Node, endTag: string, last: bool, rest: string)
    requires Normal(n, endTag, last) && (last ==> rest == "")
    requires n.TplText? ==> rest == "" || StartsWith(rest, "{{")
    ensures Scan(Print(n) + rest) == Segments(n) + Scan(rest)
    decreases n, 0, 1
  {
    hide Index, Scan, Trim, Classify, StartsWith, PrintTag;
    match n
    case TplText(t) => ScanPrintedText(t, rest);
    case TplExpr(e) => ScanPrintedTag(e, rest);
    case TplRaw(t) => ScanPrintedRaw(t, rest);
    case TplEach(e, body) => ScanPrintedEach(n, rest);
    case TplIf(c, body, els) => ScanPrintedIf(n, rest);
  }

  /** A block's contents and its closing tag. */
  lemma {:induction false} ScanBody(body: seq<Node>, endTag: string, close: string, rest: string)
    requires AllNormal(body, endTag, false) && TagText(close) && close != "raw"
    ensures Scan(PrintAll(body) + (PrintTag(close) + rest)) == AllSegments(body) + ([Tag(close)] + Scan(rest))
    decreases body, 3
  {
    hide Index, Scan, Trim;
    var s := PrintTag(close) + rest;
    assert s[..2] == "{{";
    ScanAllPrinted(body, endTag, false, s);
    ScanPrintedTag(close, rest);
  }

  lemma {:induction false} ScanPrintedEach(n: Node, rest: string)
    requires n.TplEach? && Normal(n, "", false)
    ensures Scan(Print(n) + rest) == Segments(n) + Scan(rest)
    decreases n, 0, 0
  {
    hide Index, Scan, Trim, PrintTag, TagText;
    var open := "#each " + n.expr;
    EndTags();
    BlockTag("#each ", n.expr);
    ScanBody(n.body, "/each", "/each", rest);
    TextAssoc(PrintTag(open) + PrintAll(n.body), PrintTag("/each"), rest);
    TextAssoc(PrintTag(open), PrintAll(n.body), PrintTag("/each") + rest);
    ScanPrintedTag(open, PrintAll(n.body) + (PrintTag("/each") + rest));
    SegAssoc([Tag(open)] + AllSegments(n.body), [Tag("/each")], Scan(rest));
    SegAssoc([Tag(open)], AllSegments(n.body), [Tag("/each")] + Scan(rest));
  }

  lemma {:induction false} ScanPrintedIf(n: Node, rest: string)
    requires n.TplIf? && Normal(n, "", false)
    ensures Scan(Print(n) + rest) == Segments(n) + Scan(rest)
    decreases n, 0, 0
  {
    hide Index, Scan, Trim, PrintTag, TagText;
    var open := "#if " + n.condition;
    EndTags();
    BlockTag("#if ", n.condition);
    var end := PrintTag("/if") + rest;
    var els := if n.elseBody == [] then "" else PrintTag("#else") + PrintAll(n.elseBody);
    var elseTs := if n.elseBody == [] then [] else [Tag("#else")] + AllSegments(n.elseBody);
    TextAssoc(PrintTag(open) + PrintAll(n.body) + els, PrintTag("/if"), rest);
    TextAssoc(PrintTag(open) + PrintAll(n.body), els, end);
    TextAssoc(PrintTag(open), PrintAll(n.body), els + end);
    ScanPrintedTag(open, PrintAll(n.body) + (els + end));
    SegAssoc([Tag(open)] + AllSegments(n.body) + elseTs, [Tag("/if")], Scan(rest));
    SegAssoc([Tag(open)] + AllSegments(n.body), elseTs, [Tag("/if")] + Scan(rest));
    SegAssoc([Tag(open)], AllSegments(n.body), elseTs + ([Tag("/if")] + Scan(rest)));
    if n.elseBody == [] {
      assert els + end == end && elseTs + ([Tag("/if")] + Scan(rest)) == [Tag("/if")] + Scan(rest);
      ScanBody(n.body, "/if", "/if", rest);
    } else {
      TextAssoc(PrintTag("#else"), PrintAll(n.elseBody), end);
      ScanBody(n.body, "/if", "#else", PrintAll(n.elseBody) + end);
      ScanBody(n.elseBody, "/if", "/if", rest);
      SegAssoc([Tag("#else")], AllSegments(n.elseBody), [Tag("/if")] + Scan(rest));
    }
  }

  lemma {:induction false} ScanAllPrinted(ns: seq<Node>, endTag: string, last: bool, rest: string)
    requires AllNormal(ns, endTag, last) && (last ==> rest == "") && (rest == "" || StartsWith(rest, "{{"))
    ensures Scan(PrintAll(ns) + rest) == AllSegments(ns) + Scan(rest)
    decreases ns, 2
  {
    hide Index, Scan, Trim, Classify, StartsWith, Normal, Print, Segments;
    if ns == [] {
      assert "" + rest == rest && [] + Scan(rest) == Scan(rest);
    } else {
      var behind := PrintAll(ns[1..]) + rest;
      TextAssoc(Print(ns[0]), PrintAll(ns[1..]), rest);
      SegAssoc(Segments(ns[0]), AllSegments(ns[1..]), Scan(rest));
      if |ns| > 1 {
        TextAssoc(Print(ns[1]), PrintAll(ns[1..][1..]), rest);
        if ns[0].TplText? {
          StartsWithTag(ns[1], PrintAll(ns[1..][1..]) + rest);
        }
      } else {
        assert behind == rest;
      }
      ScanPrinted(ns[0], endTag, last && |ns| == 1, behind);
      ScanAllPrinted(ns[1..], endTag, last, rest);
    }
  }

  // ---------- Its blocks ----------

  lemma BehindBoth(n: Node, more: seq<Node>, p: Parse)
    ensures Behind(n, BehindAll(more, p)) == BehindAll([n] + more, p)
  {
    if p.Parsed? || p.WithElse? {
      assert [n] + (more + p.nodes) == [n] + more + p.nodes;
    }
  }

  /** The segments of normal nodes parse to those nodes, and what follows is parsed behind them. */
  lemma {:induction false} BlocksBack(ns: seq<Node>, endTag: string, last: bool, ts: seq<Segment>)
    requires AllNormal(ns, endTag, last) && endTag in {"", "/if", "/each"}
    ensures Blocks(AllSegments(ns) + ts, endTag) == BehindAll(ns, Blocks(ts, endTag))
    decreases ns, 2
  {
    hide Blocks, Trim, Classify, Normal, Segments;
    if ns == [] {
      BehindNothing(Blocks(ts, endTag));
      assert [] + ts == ts;
    } else {
      var behind := AllSegments(ns[1..]) + ts;
      SegAssoc(Segments(ns[0]), AllSegments(ns[1..]), ts);
      NodeBack(ns[0], endTag, last && |ns| == 1, behind);
      BlocksBack(ns[1..], endTag, last, ts);
      BehindBoth(ns[0], ns[1..], Blocks(ts, endTag));
      assert [ns[0]] + ns[1..] == ns;
    }
  }

  lemma {:induction false} NodeBack(n: Node, endTag: string, last: bool, ts: seq<Segment>)
    requires Normal(n, endTag, last) && endTag in {"", "/if", "/each"}
    ensures Blocks(Segments(n) + ts, endTag) == Behind(n, Blocks(ts, endTag))
    decreases n, 1
  {
    hide Blocks, Trim, Classify, TagText, Index;
    match n
    case TplText(t) => PlainStep(Text(t), ts, endTag);
    case TplExpr(e) => PlainStep(Tag(e), ts, endTag);
    case TplRaw(t) => PlainStep(Raw(t), ts, endTag);
    case TplEach(_, _) => EachBack(n, endTag, ts);
    case TplIf(_, _, _) => IfBack(n, endTag, ts);
  }

  lemma Opens(keyword: string, c: string, endTag: string)
    requires keyword == "#if " || keyword == "#each "
    requires c != "" && TagText(c) && endTag in {"", "/if", "/each"}
    ensures Classify(keyword + c, endTag) == if keyword == "#if " then OpensIf(c) else OpensEach(c)
    ensures Trim((keyword + c)[|keyword|..]) == c
  {
    hide Trim, TagText;
    BlockTag(keyword, c);
    var t := keyword + c;
    assert t[0] == '#' && t[1] == keyword[1] && t[|keyword| - 1] == ' ';
    assert t[..4][1] == t[1];
  }

  lemma {:induction false} EachBack(n: Node, endTag: string, ts: seq<Segment>)
    requires n.TplEach? && Normal(n, "", false) && endTag in {"", "/if", "/each"}
    ensures Blocks(Segments(n) + ts, endTag) == Behind(n, Blocks(ts, endTag))
    decreases n, 0
  {
    hide Trim, Classify, TagText, Index, Blocks;
    var open := "#each " + n.expr;
    Opens("#each ", n.expr, endTag);
    var close := [Tag("/each")] + ts;
    SegAssoc([Tag(open)] + AllSegments(n.body), [Tag("/each")], ts);
    SegAssoc([Tag(open)], AllSegments(n.body), close);
    EachStep(open, AllSegments(n.body) + close, endTag);
    BlocksBack(n.body, "/each", false, close);
    CloseStep(n.body, "/each", ts, "/each");
  }

  lemma {:induction false} IfBack(n: Node, endTag: string, ts: seq<Segment>)
    requires n.TplIf? && Normal(n, "", false) && endTag in {"", "/if", "/each"}
    ensures Blocks(Segments(n) + ts, endTag) == Behind(n, Blocks(ts, endTag))
    decreases n, 0
  {
    hide Trim, Classify, TagText, Index, Blocks;
    var open := "#if " + n.condition;
    Opens("#if ", n.condition, endTag);
    var close := [Tag("/if")] + ts;
    var elseTs := if n.elseBody == [] then [] else [Tag("#else")] + AllSegments(n.elseBody);
    SegAssoc([Tag(open)] + AllSegments(n.body) + elseTs, [Tag("/if")], ts);
    SegAssoc([Tag(open)] + AllSegments(n.body), elseTs, close);
    SegAssoc([Tag(open)], AllSegments(n.body), elseTs + close);
    IfStep(open, AllSegments(n.body) + (elseTs + close), endTag);
    BlocksBack(n.body, "/if", false, elseTs + close);
    if n.elseBody == [] {
      assert elseTs + close == close;
      CloseStep(n.body, "/if", ts, "/if");
    } else {
      SegAssoc([Tag("#else")], AllSegments(n.elseBody), close);
      ElseStep(n.body, AllSegments(n.elseBody) + close);
      BlocksBack(n.elseBody, "/if", false, close);
      CloseStep(n.elseBody, "/if", ts, "/if");
      assert n.body + [] == n.body;
    }
  }

  // ---------- The round trip ----------

  /** The tree of a template; None when parsing fails or never ends. */
  function TemplateOf(input: string): Option<seq<Node>> {
    var p := Blocks(Scan(input), "");
    if p.Parsed? then Some(p.nodes) else None
  }

  /** The printed text of a normal tree parses to that tree. */
  lemma PrintedParsesBack(ns: seq<Node>)
    requires AllNormal(ns, "", true)
    ensures TemplateOf(PrintAll(ns)) == Some(ns)
  {
    hide Blocks, Scan, AllNormal;
    ScanAllPrinted(ns, "", true, "");
    assert PrintAll(ns) + "" == PrintAll(ns);
    NothingLeft([], "", "");
    BlocksBack(ns, "", true, Scan(""));
    NothingLeft(ns, "", "");
  }
}
