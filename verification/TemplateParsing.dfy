/** The template parser on text and positions, as the recursive loop of the source, for the templates on which it ends. */
module TemplateParsing {
  import opened Options
  import opened Templates

  /** What an invocation returns: nodes and position, the else sentinel with its branch, or an error. */
  datatype Reply =
    | Done(nodes: seq<Node>, pos: nat)
    | ElseAt(nodes: seq<Node>, elseNodes: seq<Node>, pos: nat)
    | Restarts(elseNodes: seq<Node>)
    | Error

  ghost predicate Says(input: string, r: Reply, p: Parse) {
    match p
    case Parsed(nodes, rest) => r.Done? && r.nodes == nodes && r.pos <= |input| && Scan(input[r.pos..]) == rest
    case WithElse(nodes, els, rest) =>
      r.ElseAt? && r.nodes == nodes && r.elseNodes == els && r.pos <= |input| && Scan(input[r.pos..]) == rest
    case Twice(third) => r == Restarts(third)
    case Failed => r == Error
    case Diverges => false
  }

  function BehindAll(nodes: seq<Node>, p: Parse): Parse {
    match p
    case Parsed(more, rest) => Parsed(nodes + more, rest)
    case WithElse(more, els, rest) => WithElse(nodes + more, els, rest)
    case _ => p
  }

  lemma BehindNothing(p: Parse)
    ensures BehindAll([], p) == p
  {
    if p.Parsed? || p.WithElse? {
      assert [] + p.nodes == p.nodes;
    }
  }

  lemma BehindMore(nodes: seq<Node>, node: Node, p: Parse)
    ensures BehindAll(nodes, Behind(node, p)) == BehindAll(nodes + [node], p)
  {
    if p.Parsed? || p.WithElse? {
      assert nodes + ([node] + p.nodes) == nodes + [node] + p.nodes;
    }
  }

  lemma IndexAtTag(s: string)
    requires StartsWith(s, "{{")
    ensures Scan(s) == ScanTag(s)
  {
  }

  /** The text up to the next tag. */
  lemma ScanText(s: string, idx: nat)
    requires s != "" && Index(s, "{{") == Some(idx)
    ensures Scan(s) == (if idx > 0 then [Text(s[..idx])] else []) + ScanTag(s[idx..])
  {
    if idx == 0 {
      assert s[0..] == s;
      assert [] + ScanTag(s) == ScanTag(s);
    }
  }

  /** What a text that starts with a tag scans to. */
  lemma ScanTagIs(s: string, i: nat)
    requires StartsWith(s, "{{") && Index(s[2..], "}}") == Some(i)
    ensures Trim(s[2..2 + i]) != "raw" ==> ScanTag(s) == [Tag(Trim(s[2..2 + i]))] + Scan(s[i + 4..])
    ensures Trim(s[2..2 + i]) == "raw" ==>
              var next := s[i + 4..];
              var rawEnd := Index(next, RAW_END);
              ScanTag(s) == if rawEnd.None? then [Unclosed] else [Raw(next[..rawEnd.value])] + Scan(next[rawEnd.value + 8..])
  {
    hide Index, Trim, Scan;
  }

  lemma ScanTagOpen(s: string)
    requires StartsWith(s, "{{") && Index(s[2..], "}}").None?
    ensures ScanTag(s) == [Unclosed]
  {
    hide Index, Trim, Scan;
  }

  /** One tag and where it ends. */
  method ReadTag(input: string, pos: nat) returns (tag: Option<string>, nextPos: nat)
    requires pos <= |input| && StartsWith(input[pos..], "{{")
    ensures nextPos <= |input| && (tag.Some? ==> pos < nextPos)
    ensures tag.None? ==> ScanTag(input[pos..]) == [Unclosed]
    ensures tag.Some? && tag.value != "raw" ==> ScanTag(input[pos..]) == [Tag(tag.value)] + Scan(input[nextPos..])
    ensures tag == Some("raw") ==>
              var next := input[nextPos..];
              var rawEnd := Index(next, RAW_END);
              ScanTag(input[pos..]) ==
              if rawEnd.None? then [Unclosed] else [Raw(next[..rawEnd.value])] + Scan(next[rawEnd.value + 8..])
  {
    hide Index, Trim, Scan, ScanTag;
    ghost var s := input[pos..];
    assert s[2..] == input[pos + 2..];
    var closeIdx := Index(input[pos + 2..], "}}");
    if closeIdx.None? {
      ScanTagOpen(s);
      return None, pos;
    }
    nextPos := pos + closeIdx.value + 4;
    ScanTagIs(s, closeIdx.value);
    assert s[2..2 + closeIdx.value] == input[pos + 2..pos + 2 + closeIdx.value];
    assert s[closeIdx.value + 4..] == input[nextPos..];
    tag := Some(Trim(input[pos + 2..pos + 2 + closeIdx.value]));
  }

  // ---------- One segment ----------

  lemma CloseStep(nodes: seq<Node>, tag: string, next: seq<Segment>, endTag: string)
    requires endTag != "" && tag == endTag
    ensures BehindAll(nodes, Blocks([Tag(tag)] + next, endTag)) == Parsed(nodes, next)
  {
    var ts := [Tag(tag)] + next;
    assert ts[1..] == next;
  }

  lemma ElseStep(nodes: seq<Node>, next: seq<Segment>)
    ensures BehindAll(nodes, Blocks([Tag("#else")] + next, "/if")) == BehindAll(nodes, AfterElse(Blocks(next, "/if")))
  {
    var ts := [Tag("#else")] + next;
    assert ts[1..] == next;
  }

  lemma UnclosedStep(nodes: seq<Node>, endTag: string)
    ensures BehindAll(nodes, Blocks([Unclosed], endTag)) == Failed
  {
  }

  /** What becomes of a block whose body was parsed to p. */
  function AfterIf(condition: string, p: Parse, endTag: string): Parse {
    match p
    case Failed => Failed
    case Diverges => Diverges
    case Twice(_) => Diverges
    case Parsed(body, rest) => Behind(TplIf(condition, body, []), Blocks(rest, endTag))
    case WithElse(body, els, rest) => Behind(TplIf(condition, body, els), Blocks(rest, endTag))
  }

  function AfterEach(expr: string, p: Parse, endTag: string): Parse {
    match p
    case Diverges => Diverges
    case Parsed(body, rest) => Behind(TplEach(expr, body), Blocks(rest, endTag))
    case _ => Failed
  }

  lemma IfStep(tag: string, next: seq<Segment>, endTag: string)
    requires Classify(tag, endTag).OpensIf?
    ensures Blocks([Tag(tag)] + next, endTag) == AfterIf(Trim(tag[4..]), Blocks(next, "/if"), endTag)
  {
    hide Trim, StartsWith;
    var ts := [Tag(tag)] + next;
    assert ts[1..] == next;
  }

  lemma EachStep(tag: string, next: seq<Segment>, endTag: string)
    requires Classify(tag, endTag).OpensEach?
    ensures Blocks([Tag(tag)] + next, endTag) == AfterEach(Trim(tag[6..]), Blocks(next, "/each"), endTag)
  {
    hide Trim, StartsWith;
    var ts := [Tag(tag)] + next;
    assert ts[1..] == next;
  }

  lemma Classified(tag: string, endTag: string)
    requires !(endTag != "" && tag == endTag) && !(endTag == "/if" && tag == "#else")
    ensures StartsWith(tag, "#if ") ==> Classify(tag, endTag).OpensIf?
    ensures !StartsWith(tag, "#if ") && StartsWith(tag, "#each ") ==> Classify(tag, endTag).OpensEach?
    ensures !StartsWith(tag, "#if ") && !StartsWith(tag, "#each ") ==> Classify(tag, endTag).Plain?
  {
  }

  // ---------- The parser ----------

  /** The branch behind `#else`; its own sentinel is passed on. */
  method ParseElse(input: string, nodes: seq<Node>, nextPos: nat) returns (r: Reply)
    requires nextPos <= |input| && !AfterElse(Blocks(Scan(input[nextPos..]), "/if")).Diverges?
    ensures Says(input, r, BehindAll(nodes, AfterElse(Blocks(Scan(input[nextPos..]), "/if"))))
    ensures r.Done? || r.ElseAt? ==> r.pos >= nextPos
    decreases |input| - nextPos, 1
  {
    hide Scan, Blocks;
    var els := ParseTemplateInner(input, nextPos, "/if");
    match els
    case Error => return Error;
    case Done(elseNodes, elsePos) => return ElseAt(nodes, elseNodes, elsePos);
    case ElseAt(_, third, _) => return Restarts(third);
    case Restarts(third) => return Restarts(third);
  }

  /** An `#if` block; None is an error. */
  method ParseIf(input: string, condition: string, nextPos: nat, ghost endTag: string) returns (r: Option<(Node, nat)>)
    requires nextPos <= |input| && !AfterIf(condition, Blocks(Scan(input[nextPos..]), "/if"), endTag).Diverges?
    ensures var p := AfterIf(condition, Blocks(Scan(input[nextPos..]), "/if"), endTag);
            if r.None? then p == Failed
            else nextPos <= r.value.1 <= |input| && p == Behind(r.value.0, Blocks(Scan(input[r.value.1..]), endTag))
    decreases |input| - nextPos, 1
  {
    hide Scan, Blocks;
    var body := ParseTemplateInner(input, nextPos, "/if");
    match body
    case Error => return None;
    case Done(nodes, pos) => return Some((TplIf(condition, nodes, []), pos));
    case ElseAt(nodes, els, pos) => return Some((TplIf(condition, nodes, els), pos));
  }

  /** An `#each` block. */
  method ParseEach(input: string, expr: string, nextPos: nat, ghost endTag: string) returns (r: Option<(Node, nat)>)
    requires nextPos <= |input| && !AfterEach(expr, Blocks(Scan(input[nextPos..]), "/each"), endTag).Diverges?
    ensures var p := AfterEach(expr, Blocks(Scan(input[nextPos..]), "/each"), endTag);
            if r.None? then p == Failed
            else nextPos <= r.value.1 <= |input| && p == Behind(r.value.0, Blocks(Scan(input[r.value.1..]), endTag))
    decreases |input| - nextPos, 1
  {
    hide Scan, Blocks;
    var body := ParseTemplateInner(input, nextPos, "/each");
    if body.Done? {
      return Some((TplEach(expr, body.nodes), body.pos));
    }
    return None;
  }

  /** A tag that neither ends the block nor starts its else branch. */
  method ParseTag(input: string, tag: string, nextPos: nat, ghost endTag: string, ghost ts: seq<Segment>)
    returns (r: Option<(Node, nat)>)
    requires nextPos <= |input| && endTag != "raw" && !Blocks(ts, endTag).Diverges?
    requires !(endTag != "" && tag == endTag) && !(endTag == "/if" && tag == "#else")
    requires tag != "raw" ==> ts == [Tag(tag)] + Scan(input[nextPos..])
    requires tag == "raw" ==>
               var next := input[nextPos..];
               var rawEnd := Index(next, RAW_END);
               ts == if rawEnd.None? then [Unclosed] else [Raw(next[..rawEnd.value])] + Scan(next[rawEnd.value + 8..])
    ensures if r.None? then Blocks(ts, endTag) == Failed
            else nextPos <= r.value.1 <= |input| && Blocks(ts, endTag) == Behind(r.value.0, Blocks(Scan(input[r.value.1..]), endTag))
    decreases |input| - nextPos, 2
  {
    hide Index, Scan, Trim, Blocks, Classify;
    Classified(tag, endTag);
    if StartsWith(tag, "#if ") {
      IfStep(tag, Scan(input[nextPos..]), endTag);
      r := ParseIf(input, Trim(tag[4..]), nextPos, endTag);
    } else if StartsWith(tag, "#each ") {
      EachStep(tag, Scan(input[nextPos..]), endTag);
      r := ParseEach(input, Trim(tag[6..]), nextPos, endTag);
    } else if tag == "raw" {
      ghost var next := input[nextPos..];
      var rawEnd := Index(input[nextPos..], RAW_END);
      if rawEnd.None? {
        UnclosedStep([], endTag);
        BehindNothing(Blocks(ts, endTag));
        return None;
      }
      var text := input[nextPos..nextPos + rawEnd.value];
      assert next[..rawEnd.value] == text && next[rawEnd.value + 8..] == input[nextPos + rawEnd.value + 8..];
      PlainStep(Raw(text), Scan(input[nextPos + rawEnd.value + 8..]), endTag);
      return Some((TplRaw(text), nextPos + rawEnd.value + 8));
    } else {
      PlainStep(Tag(tag), Scan(input[nextPos..]), endTag);
      return Some((TplExpr(tag), nextPos));
    }
  }

  lemma PlainStep(seg: Segment, next: seq<Segment>, endTag: string)
    requires seg.Text? || seg.Raw? || (seg.Tag? && Classify(seg.tag, endTag).Plain?)
    ensures Blocks([seg] + next, endTag) == Behind(Leaf(seg), Blocks(next, endTag))
  {
    hide Classify;
    var ts := [seg] + next;
    assert ts[1..] == next;
  }

  method ParseTemplateInner(input: string, start: nat, endTag: string) returns (r: Reply)
    requires start <= |input| && endTag != "raw" && !Blocks(Scan(input[start..]), endTag).Diverges?
    ensures Says(input, r, Blocks(Scan(input[start..]), endTag))
    ensures r.Done? || r.ElseAt? ==> r.pos >= start
    decreases |input| - start, 0
  {
    hide Index, Scan, ScanTag, Trim, Blocks;
    var nodes: seq<Node> := [];
    var pos := start;
    ghost var spec := Blocks(Scan(input[start..]), endTag);
    BehindNothing(spec);
    while pos < |input|
      invariant start <= pos <= |input| && spec == BehindAll(nodes, Blocks(Scan(input[pos..]), endTag))
      decreases |input| - pos
    {
      var idx := Index(input[pos..], "{{");
      if idx.None? {
        PlainTail(nodes, input[pos..], endTag);
        nodes := nodes + [TplText(input[pos..])];
        pos := |input|;
        break;
      }
      FoundTag(input[pos..], idx.value);
      assert input[pos..][idx.value..] == input[pos + idx.value..];
      if idx.value > 0 {
        TextFirst(nodes, input[pos..], idx.value, endTag);
        nodes := nodes + [TplText(input[pos..][..idx.value])];
      }
      pos := pos + idx.value;
      IndexAtTag(input[pos..]);
      var tag, nextPos := ReadTag(input, pos);
      if tag.None? {
        UnclosedStep(nodes, endTag);
        return Error;
      }
      if endTag != "" && tag.value == endTag {
        CloseStep(nodes, tag.value, Scan(input[nextPos..]), endTag);
        return Done(nodes, nextPos);
      }
      if endTag == "/if" && tag.value == "#else" {
        ElseStep(nodes, Scan(input[nextPos..]));
        r := ParseElse(input, nodes, nextPos);
        return;
      }
      var node := ParseTag(input, tag.value, nextPos, endTag, Scan(input[pos..]));
      if node.None? {
        return Error;
      }
      BehindMore(nodes, node.value.0, Blocks(Scan(input[node.value.1..]), endTag));
      nodes := nodes + [node.value.0];
      pos := node.value.1;
    }
    assert input[pos..] == "";
    NothingLeft(nodes, input[pos..], endTag);
    if endTag != "" {
      return Error;
    }
    return Done(nodes, pos);
  }

  lemma FoundTag(s: string, idx: nat)
    requires Index(s, "{{") == Some(idx)
    ensures idx + 2 <= |s| && StartsWith(s[idx..], "{{")
  {
  }

  lemma NothingLeft(nodes: seq<Node>, s: string, endTag: string)
    requires s == ""
    ensures BehindAll(nodes, Blocks(Scan(s), endTag)) == if endTag != "" then Failed else Parsed(nodes, [])
    ensures Scan(s) == []
  {
  }

  /** Text without a tag: all that is left. */
  lemma PlainTail(nodes: seq<Node>, s: string, endTag: string)
    requires s != "" && Index(s, "{{").None?
    ensures BehindAll(nodes, Blocks(Scan(s), endTag)) == BehindAll(nodes + [TplText(s)], Blocks(Scan(""), endTag))
  {
    assert Scan(s) == [Text(s)];
    BehindMore(nodes, TplText(s), Blocks([], endTag));
  }

  lemma TextFirst(nodes: seq<Node>, s: string, idx: nat, endTag: string)
    requires idx > 0 && Index(s, "{{") == Some(idx)
    ensures BehindAll(nodes, Blocks(Scan(s), endTag)) == BehindAll(nodes + [TplText(s[..idx])], Blocks(Scan(s[idx..]), endTag))
  {
    ScanText(s, idx);
    IndexAtTag(s[idx..]);
    var ts := [Text(s[..idx])] + Scan(s[idx..]);
    assert ts[1..] == Scan(s[idx..]);
    BehindMore(nodes, TplText(s[..idx]), Blocks(Scan(s[idx..]), endTag));
  }
}
