/** What the template parser returns is in normal form. */
module TemplateImage {
  import opened Options
  import opened Templates
  import opened TemplateParsing
  import opened TemplatePrinting

  // ---------- Segments of a scanned text ----------

  predicate CleanSegment(s: Segment, last: bool) {
    match s
    case Text(t) => PlainText(t, last)
    case Tag(t) => TagText(t) && t != "raw"
    case Raw(t) => Lacks(t, RAW_END)
    case Unclosed => last
  }

  predicate Clean(ts: seq<Segment>) {
    ts == [] ||
    (&& CleanSegment(ts[0], |ts| == 1)
     && (ts[0].Text? && |ts| > 1 ==> !ts[1].Text?)
     && Clean(ts[1..]))
  }

  lemma {:induction false} IndexLeast(s: string, p: string, j: nat)
    requires p != "" && j <= |s| && StartsWith(s[j..], p)
    ensures Index(s, p).Some? && Index(s, p).value <= j
    decreases j
  {
    if j > 0 {
      assert s[1..][j - 1..] == s[j..];
      IndexLeast(s[1..], p, j - 1);
    } else {
      assert s[0..] == s;
    }
  }

  /** There is no occurrence before the first one. */
  lemma BeforeIndex(s: string, p: string)
    requires p != "" && Index(s, p).Some?
    ensures Lacks(s[..Index(s, p).value], p)
  {
    var i := Index(s, p).value;
    var j := Index(s[..i], p);
    if j.Some? {
      assert s[j.value..][..|p|] == s[..i][j.value..][..|p|];
      IndexLeast(s, p, j.value);
      assert false;
    }
  }

  lemma TextClean(s: string, idx: nat)
    requires idx > 0 && Index(s, "{{") == Some(idx)
    ensures PlainText(s[..idx], false)
  {
    BeforeIndex(s, "{{");
    FoundTag(s, idx);
    if s[idx - 1] == '{' {
      assert s[idx..][..2][0] == s[idx];
      assert s[idx - 1..][..2] == "{{";
      IndexLeast(s, "{{", idx - 1);
      assert false;
    }
  }

  lemma TrimmedPart(t: string, p: string)
    requires p != "" && Lacks(t, p)
    ensures Lacks(Trim(t), p) && Trim(Trim(t)) == Trim(t)
  {
    var a, c := TrimIsPart(t);
    PartLacks(a, Trim(t), c, p);
    TrimTwice(t);
  }

  lemma {:induction false} ScanClean(s: string)
    ensures Clean(Scan(s))
    decreases |s|, 1
  {
    hide Index, Trim, ScanTag, CleanSegment;
    if s != "" {
      var idx := Index(s, "{{");
      if idx.None? {
        TextLastClean(s);
      } else {
        FoundTag(s, idx.value);
        ScanText(s, idx.value);
        ScanTagClean(s[idx.value..]);
        if idx.value > 0 {
          TextClean(s, idx.value);
          TextBeforeTagClean(s[..idx.value], ScanTag(s[idx.value..]));
        } else {
          assert [] + ScanTag(s[0..]) == ScanTag(s[0..]);
        }
      }
    }
  }

  lemma TextLastClean(s: string)
    requires s != "" && Index(s, "{{").None?
    ensures Clean(Scan(s))
  {
    assert Scan(s) == [Text(s)];
  }

  lemma TextBeforeTagClean(t: string, ts: seq<Segment>)
    requires PlainText(t, false) && ts != [] && !ts[0].Text? && Clean(ts)
    ensures Clean([Text(t)] + ts)
  {
    assert ([Text(t)] + ts)[1..] == ts;
  }

  lemma SegmentFirstClean(seg: Segment, ts: seq<Segment>)
    requires CleanSegment(seg, false) && !seg.Text? && Clean(ts)
    ensures Clean([seg] + ts)
  {
    assert ([seg] + ts)[1..] == ts;
  }

  lemma {:induction false} ScanTagClean(s: string)
    requires StartsWith(s, "{{")
    ensures ScanTag(s) != [] && !ScanTag(s)[0].Text? && Clean(ScanTag(s))
    decreases |s|, 0
  {
    hide Index, Trim, Scan, ScanTag;
    var i := Index(s[2..], "}}");
    if i.None? {
      ScanTagOpen(s);
    } else {
      ScanTagIs(s, i.value);
      BeforeIndex(s[2..], "}}");
      var inner := s[2..2 + i.value];
      assert s[2..][..i.value] == inner;
      TrimmedPart(inner, "}}");
      var next := s[i.value + 4..];
      if Trim(inner) == "raw" {
        var end := Index(next, RAW_END);
        if end.Some? {
          BeforeIndex(next, RAW_END);
          ScanClean(next[end.value + 8..]);
          SegmentFirstClean(Raw(next[..end.value]), Scan(next[end.value + 8..]));
        }
      } else {
        ScanClean(next);
        SegmentFirstClean(Tag(Trim(inner)), Scan(next));
      }
    }
  }

  // ---------- What parsing returns ----------

  lemma {:induction false} CleanSuffix(ts: seq<Segment>, k: nat)
    requires Clean(ts) && k <= |ts|
    ensures Clean(ts[k..])
  {
    if k == 0 {
      assert ts[0..] == ts;
    } else {
      CleanSuffix(ts[1..], k - 1);
      assert ts[1..][k - 1..] == ts[k..];
    }
  }

  lemma RestClean(ts: seq<Segment>, endTag: string)
    requires Clean(ts)
    ensures var p := Blocks(ts, endTag); p.Parsed? || p.WithElse? ==> Clean(p.rest)
  {
    RestIsSuffix(ts, endTag);
    var p := Blocks(ts, endTag);
    if p.Parsed? || p.WithElse? {
      CleanSuffix(ts, |ts| - |p.rest|);
    }
  }

  /** A block tag's condition is not empty and can be printed. */
  lemma ConditionText(keyword: string, tag: string)
    requires keyword == "#if " || keyword == "#each "
    requires TagText(tag) && StartsWith(tag, keyword)
    ensures Trim(tag[|keyword|..]) != "" && TagText(Trim(tag[|keyword|..]))
  {
    hide Trim, TrailingSpace, SpaceRune, StartsWith, Lacks;
    TrimmedEnds(tag);
    BlankEnds(keyword, tag);
    var t := tag[|keyword|..];
    SuffixEnds(tag, |keyword|);
    NotAllBlank(t);
    assert tag == tag[..|keyword|] + t + "";
    PartLacks(tag[..|keyword|], t, "", "}}");
    TrimmedPart(t, "}}");
  }

  /** A tag that ends with no white space is more than a keyword and its blank. */
  lemma BlankEnds(keyword: string, tag: string)
    requires keyword == "#if " || keyword == "#each "
    requires StartsWith(tag, keyword) && TrailingSpace(tag) == 0
    ensures |tag| > |keyword|
  {
    assert !SpaceRune(tag[|tag| - 1..]);
  }

  /** What starts a white space character and is not all of it goes on behind it. */
  lemma {:induction false} NotAllBlank(t: string)
    requires t != "" && TrailingSpace(t) == 0
    ensures Trim(t) != ""
    decreases |t|
  {
    hide SpaceRune, LeadingSpace, TrailingSpace;
    var n := LeadingSpace(t);
    if n > 0 {
      SuffixEnds(t, n);
      NotOneBlank(t, n);
      NotAllBlank(t[n..]);
    }
  }

  lemma NotOneBlank(t: string, n: nat)
    requires 0 < n <= |t| && SpaceRune(t[..n]) && TrailingSpace(t) == 0
    ensures n < |t|
  {
    assert t[..|t|] == t && t[0..] == t;
  }

  /** Nodes of a block that ends with endTag, in normal form. */
  ghost predicate NormalParse(p: Parse, endTag: string) {
    && (p.Parsed? ==> AllNormal(p.nodes, endTag, endTag == ""))
    && (p.WithElse? ==> AllNormal(p.nodes, endTag, endTag == "") && AllNormal(p.elseNodes, "/if", false) && endTag == "/if")
  }

  /** A text node comes from a text segment. */
  lemma TextFromText(ts: seq<Segment>, endTag: string)
    ensures var p := Blocks(ts, endTag);
            (p.Parsed? || p.WithElse?) && p.nodes != [] && p.nodes[0].TplText? ==> ts != [] && ts[0].Text?
    ensures endTag != "" && ts == [] ==> Blocks(ts, endTag) == Failed
    ensures ts == [] && (Blocks(ts, endTag).Parsed? || Blocks(ts, endTag).WithElse?) ==> Blocks(ts, endTag).nodes == []
  {
    hide Classify;
  }

  lemma NormalFirst(n: Node, p: Parse, endTag: string)
    requires NormalParse(p, endTag) && (p.Parsed? || p.WithElse?)
    requires Normal(n, endTag, endTag == "" && p.nodes == []) && (n.TplText? && p.nodes != [] ==> !p.nodes[0].TplText?)
    ensures NormalParse(Behind(n, p), endTag)
  {
    assert ([n] + p.nodes)[1..] == p.nodes;
  }

  lemma NormalOrNot(n: Node, p: Parse, endTag: string)
    requires NormalParse(p, endTag)
    requires p.Parsed? || p.WithElse? ==>
               Normal(n, endTag, endTag == "" && p.nodes == []) && (n.TplText? && p.nodes != [] ==> !p.nodes[0].TplText?)
    ensures NormalParse(Behind(n, p), endTag)
  {
    hide Normal, AllNormal;
    if p.Parsed? || p.WithElse? {
      NormalFirst(n, p, endTag);
    }
  }

  lemma {:induction false} BlocksNormal(ts: seq<Segment>, endTag: string)
    requires Clean(ts) && endTag in {"", "/if", "/each"}
    ensures NormalParse(Blocks(ts, endTag), endTag)
    decreases |ts|, 1
  {
    hide Classify, TagText, PlainText, Trim, Blocks;
    if ts == [] {
      NothingNormal(endTag);
    } else if ts[0].Unclosed? {
      UnclosedNormal(ts, endTag);
    } else {
      var seg, next := ts[0], ts[1..];
      assert ts == [seg] + next;
      if !seg.Tag? || Classify(seg.tag, endTag).Plain? {
        BlocksNormal(next, endTag);
        LeafNormal(ts, endTag);
      } else {
        match Classify(seg.tag, endTag)
        case Closes =>
          ClassifiedClose(seg.tag, endTag);
          CloseStep([], seg.tag, next, endTag);
          BehindNothing(Blocks(ts, endTag));
          NoNodes(next, endTag);
        case Elses =>
          ClassifiedElse(seg.tag, endTag);
          ElseStep([], next);
          BehindNothing(Blocks(ts, endTag));
          BehindNothing(AfterElse(Blocks(next, "/if")));
          BlocksNormal(next, "/if");
          ElseNormal(Blocks(next, "/if"));
        case OpensIf(_) => IfNormal(ts, endTag);
        case OpensEach(_) => EachNormal(ts, endTag);
      }
    }
  }

  lemma NothingNormal(endTag: string)
    ensures NormalParse(Blocks([], endTag), endTag)
  {
  }

  lemma UnclosedNormal(ts: seq<Segment>, endTag: string)
    requires ts != [] && ts[0].Unclosed?
    ensures NormalParse(Blocks(ts, endTag), endTag)
  {
  }

  lemma NoNodes(rest: seq<Segment>, endTag: string)
    ensures NormalParse(Parsed([], rest), endTag)
  {
  }

  lemma ElseNormal(p: Parse)
    requires NormalParse(p, "/if")
    ensures NormalParse(AfterElse(p), "/if")
  {
    hide Normal;
  }

  lemma LeafIsNormal(seg: Segment, last: bool, endTag: string)
    requires CleanSegment(seg, last) && !seg.Unclosed? && (seg.Tag? ==> Classify(seg.tag, endTag).Plain?)
    ensures Normal(Leaf(seg), endTag, last) && (!last ==> Normal(Leaf(seg), endTag, true))
  {
    hide Classify;
  }

  lemma LeafNormal(ts: seq<Segment>, endTag: string)
    requires Clean(ts) && ts != [] && !ts[0].Unclosed? && (ts[0].Tag? ==> Classify(ts[0].tag, endTag).Plain?)
    requires NormalParse(Blocks(ts[1..], endTag), endTag)
    ensures NormalParse(Blocks(ts, endTag), endTag)
  {
    hide Classify, Blocks;
    var p := Blocks(ts[1..], endTag);
    assert ts == [ts[0]] + ts[1..];
    PlainStep(ts[0], ts[1..], endTag);
    TextFromText(ts[1..], endTag);
    LeafIsNormal(ts[0], |ts| == 1, endTag);
    if |ts| > 1 {
      assert ts[1..][0] == ts[1];
    }
    NormalOrNot(Leaf(ts[0]), p, endTag);
  }

  lemma {:induction false} IfNormal(ts: seq<Segment>, endTag: string)
    requires Clean(ts) && ts != [] && ts[0].Tag? && Classify(ts[0].tag, endTag).OpensIf? && endTag in {"", "/if", "/each"}
    ensures NormalParse(Blocks(ts, endTag), endTag)
    decreases |ts|, 0
  {
    hide Classify, Trim, Blocks, TagText;
    var tag, next := ts[0].tag, ts[1..];
    assert ts == [Tag(tag)] + next;
    IfStep(tag, next, endTag);
    OpensAsIf(tag, endTag);
    ConditionText("#if ", tag);
    BlocksNormal(next, "/if");
    RestClean(next, "/if");
    var p := Blocks(next, "/if");
    if p.Parsed? || p.WithElse? {
      BlocksNormal(p.rest, endTag);
      var els := if p.WithElse? then p.elseNodes else [];
      NormalOrNot(TplIf(Trim(tag[4..]), p.nodes, els), Blocks(p.rest, endTag), endTag);
    }
  }

  lemma OpensAsEach(tag: string, endTag: string)
    requires Classify(tag, endTag).OpensEach?
    ensures StartsWith(tag, "#each ")
  {
  }

  lemma {:induction false} EachNormal(ts: seq<Segment>, endTag: string)
    requires Clean(ts) && ts != [] && ts[0].Tag? && Classify(ts[0].tag, endTag).OpensEach? && endTag in {"", "/if", "/each"}
    ensures NormalParse(Blocks(ts, endTag), endTag)
    decreases |ts|, 0
  {
    hide Classify, Trim, Blocks, TagText;
    var tag, next := ts[0].tag, ts[1..];
    assert ts == [Tag(tag)] + next;
    EachStep(tag, next, endTag);
    OpensAsEach(tag, endTag);
    ConditionText("#each ", tag);
    BlocksNormal(next, "/each");
    RestClean(next, "/each");
    var p := Blocks(next, "/each");
    if p.Parsed? {
      BlocksNormal(p.rest, endTag);
      NormalOrNot(TplEach(Trim(tag[6..]), p.nodes), Blocks(p.rest, endTag), endTag);
    }
  }

  // ---------- Round trips ----------

  /** What the parser returns is in normal form. */
  lemma ReadIsNormal(input: string)
    requires TemplateOf(input).Some?
    ensures AllNormal(TemplateOf(input).value, "", true)
  {
    hide Scan, Blocks, AllNormal, Clean;
    ScanClean(input);
    BlocksNormal(Scan(input), "");
  }

  /** Reading, printing and reading again changes nothing. */
  lemma ReadPrintRead(input: string)
    requires TemplateOf(input).Some?
    ensures TemplateOf(PrintAll(TemplateOf(input).value)) == TemplateOf(input)
  {
    ReadIsNormal(input);
    PrintedParsesBack(TemplateOf(input).value);
  }

  /** The trees of templates are exactly the normal ones. */
  lemma TemplatesAreNormal(ns: seq<Node>)
    ensures (exists input :: TemplateOf(input) == Some(ns)) <==> AllNormal(ns, "", true)
  {
    if AllNormal(ns, "", true) {
      PrintedParsesBack(ns);
    }
    if input :| TemplateOf(input) == Some(ns) {
      ReadIsNormal(input);
    }
  }

  // ---------- Templates without end ----------

  lemma {:induction false} CleanUnclosed(ts: seq<Segment>, k: nat)
    requires Clean(ts) && k < |ts| - 1
    ensures !ts[k].Unclosed?
  {
    if k > 0 {
      CleanUnclosed(ts[1..], k - 1);
    }
  }

  /** Parsing a text ends exactly when no reached `#if` has a second `#else`, and then gives the specified outcome. */
  lemma TextEndsIff(input: string)
    ensures Ends(Scan(input)) <==> !Blocks(Scan(input), "").Diverges?
  {
    ScanClean(input);
    var ts := Scan(input);
    forall k | 0 <= k < |ts| - 1 ensures !ts[k].Unclosed? {
      CleanUnclosed(ts, k);
    }
    ParsingEndsIff(ts);
  }

  /** An `#if` with two `#else` is such a template. */
  lemma SecondElseNeverEnds()
    ensures !Ends(Scan(PrintTag("#if a") + (PrintTag("#else") + (PrintTag("#else") + (PrintTag("/if") + "")))))
  {
    hide Scan;
    Keyword("a");
    BlockTag("#if ", "a");
    assert "#if " + "a" == "#if a";
    EndTags();
    ScanPrintedTag("/if", "");
    ScanPrintedTag("#else", PrintTag("/if") + "");
    ScanPrintedTag("#else", PrintTag("#else") + (PrintTag("/if") + ""));
    ScanPrintedTag("#if a", PrintTag("#else") + (PrintTag("#else") + (PrintTag("/if") + "")));
    var input := PrintTag("#if a") + (PrintTag("#else") + (PrintTag("#else") + (PrintTag("/if") + "")));
    TwoElses(Scan(input), Scan(""));
    TextEndsIff(input);
  }

  lemma TwoElses(ts: seq<Segment>, rest: seq<Segment>)
    requires ts == [Tag("#if a")] + ([Tag("#else")] + ([Tag("#else")] + ([Tag("/if")] + rest)))
    ensures Blocks(ts, "").Diverges?
  {
    hide Trim;
    var t1 := [Tag("#else")] + ([Tag("#else")] + ([Tag("/if")] + rest));
    var t2 := [Tag("#else")] + ([Tag("/if")] + rest);
    var t3 := [Tag("/if")] + rest;
    assert ts[1..] == t1 && t1[1..] == t2 && t2[1..] == t3 && t3[1..] == rest;
    assert Blocks(t3, "/if") == Parsed([], rest);
    assert Blocks(t2, "/if") == WithElse([], [], rest);
    assert Blocks(t1, "/if") == Twice([]);
    OpensAnyway("#if a", "");
  }
}
