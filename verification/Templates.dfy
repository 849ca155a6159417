/** The template parser as a function of segments, when it ends, and what one step of it does when it does not. */
module Templates {
  import opened Options

  // Tags are scanned out of the text, and blocks nest. The parser signals `#else` to the `#if` that called it by an
  // error value; a second `#else` in one `#if` arrives there with position 0, and parsing starts over.

  datatype Node =
    | TplText(text: string)
    | TplExpr(expr: string)
    | TplIf(condition: string, body: seq<Node>, elseBody: seq<Node>)
    | TplEach(expr: string, body: seq<Node>)
    | TplRaw(text: string)

  // ---------- Strings ----------

  predicate StartsWith(s: string, p: string) {
    |p| <= |s| && s[..|p|] == p
  }

  /** The first occurrence of p. */
  function Index(s: string, p: string): (r: Option<nat>)
    requires p != ""
    ensures r.Some? ==> r.value + |p| <= |s| && StartsWith(s[r.value..], p)
  {
    if StartsWith(s, p) then Some(0)
    else if s == "" then None
    else match Index(s[1..], p)
      case None => None
      case Some(i) => Some(i + 1)
  }

  /** One of Unicode's white space characters, in UTF-8. */
  predicate SpaceRune(s: string) {
    match |s|
    case 1 => s[0] == ' ' || '\t' <= s[0] <= '\r'
    case 2 => s[0] as int == 0xC2 && (s[1] as int == 0x85 || s[1] as int == 0xA0)
    case 3 =>
      var (a, b, c) := (s[0] as int, s[1] as int, s[2] as int);
      || (a == 0xE1 && b == 0x9A && c == 0x80)
      || (a == 0xE2 && b == 0x80 && (0x80 <= c <= 0x8A || c == 0xA8 || c == 0xA9 || c == 0xAF))
      || (a == 0xE2 && b == 0x81 && c == 0x9F)
      || (a == 0xE3 && b == 0x80 && c == 0x80)
    case _ => false
  }

  /** The bytes of the white space character at the start, 0 when there is none. */
  function LeadingSpace(s: string): (n: nat)
    ensures n <= |s| && (n > 0 ==> SpaceRune(s[..n]))
  {
    if |s| >= 1 && SpaceRune(s[..1]) then 1
    else if |s| >= 2 && SpaceRune(s[..2]) then 2
    else if |s| >= 3 && SpaceRune(s[..3]) then 3
    else 0
  }

  /** The same at the end. */
  function TrailingSpace(s: string): (n: nat)
    ensures n <= |s| && (n > 0 ==> SpaceRune(s[|s| - n..]))
  {
    if |s| >= 1 && SpaceRune(s[|s| - 1..]) then 1
    else if |s| >= 2 && SpaceRune(s[|s| - 2..]) then 2
    else if |s| >= 3 && SpaceRune(s[|s| - 3..]) then 3
    else 0
  }

  function TrimLeft(s: string): (r: string)
    ensures |r| <= |s|
  {
    if LeadingSpace(s) > 0 then TrimLeft(s[LeadingSpace(s)..]) else s
  }

  function TrimRight(s: string): (r: string)
    ensures |r| <= |s|
  {
    if TrailingSpace(s) > 0 then TrimRight(s[..|s| - TrailingSpace(s)]) else s
  }

  function Trim(s: string): string {
    TrimRight(TrimLeft(s))
  }

  // ---------- Segments ----------

  const RAW_END := "{{/raw}}"

  /** Text, a tag with its content trimmed, a raw block, or a tag or raw block that is not closed. */
  datatype Segment = Text(text: string) | Tag(tag: string) | Raw(text: string) | Unclosed

  /** The segments of a text: where one ends does not depend on the blocks around it. */
  function Scan(s: string): seq<Segment>
    decreases |s|
  {
    if s == "" then []
    else match Index(s, "{{")
      case None => [Text(s)]
      case Some(idx) =>
        if idx > 0 then [Text(s[..idx])] + ScanTag(s[idx..]) else ScanTag(s)
  }

  /** Text that starts with a tag. */
  function ScanTag(s: string): seq<Segment>
    requires StartsWith(s, "{{")
    decreases |s|, 0
  {
    match Index(s[2..], "}}")
    case None => [Unclosed]
    case Some(i) =>
      var tag, next := Trim(s[2..2 + i]), s[i + 4..];
      if tag == "raw" then
        match Index(next, RAW_END)
        case None => [Unclosed]
        case Some(end) => [Raw(next[..end])] + Scan(next[end + 8..])
      else [Tag(tag)] + Scan(next)
  }

  /** What a tag is inside a block that ends with endTag. */
  datatype Directive = Closes | Elses | OpensIf(condition: string) | OpensEach(expr: string) | Plain

  function Classify(tag: string, endTag: string): Directive {
    if endTag != "" && tag == endTag then Closes
    else if endTag == "/if" && tag == "#else" then Elses
    else if StartsWith(tag, "#if ") then OpensIf(Trim(tag[4..]))
    else if StartsWith(tag, "#each ") then OpensEach(Trim(tag[6..]))
    else Plain
  }

  function Leaf(s: Segment): Node {
    match s
    case Text(t) => TplText(t)
    case Tag(t) => TplExpr(t)
    case Raw(t) => TplRaw(t)
    case Unclosed => TplText("")
  }

  // ---------- The parser step by step ----------

  /**
   * What an invocation returns: nodes and position, the else sentinel with nodes, its branch and position, the
   * sentinel passed on without nodes and with position 0, or an error.
   */
  datatype Out =
    | Ok(nodes: seq<Node>, rest: seq<Segment>)
    | Else(nodes: seq<Node>, elseNodes: seq<Node>, rest: seq<Segment>)
    | Restart(elseNodes: seq<Node>)
    | Err

  function Prepend(nodes: seq<Node>, r: Option<Out>): Option<Out> {
    match r
    case None => None
    case Some(Ok(more, rest)) => Some(Ok(nodes + more, rest))
    case Some(Else(more, els, rest)) => Some(Else(nodes + more, els, rest))
    case Some(_) => r
  }

  /** The parser with a bound on its steps, from the segments `ts` of a template whose segments are `all`. */
  function Exact(fuel: nat, all: seq<Segment>, ts: seq<Segment>, endTag: string): Option<Out>
    decreases fuel
  {
    if fuel == 0 then None
    else if ts == [] then Some(if endTag != "" then Err else Ok([], []))
    else if ts[0].Unclosed? then Some(Err)
    else if !ts[0].Tag? then Prepend([Leaf(ts[0])], Exact(fuel - 1, all, ts[1..], endTag))
    else
      match Classify(ts[0].tag, endTag)
      case Closes => Some(Ok([], ts[1..]))
      case Plain => Prepend([Leaf(ts[0])], Exact(fuel - 1, all, ts[1..], endTag))
      case Elses => (
        match Exact(fuel - 1, all, ts[1..], "/if")
        case None => None
        case Some(Err) => Some(Err)
        case Some(Ok(elseNodes, rest)) => Some(Else([], elseNodes, rest))
        case Some(Else(_, third, _)) => Some(Restart(third))
        case Some(Restart(third)) => Some(Restart(third)))
      case OpensIf(condition) => (
        match Exact(fuel - 1, all, ts[1..], "/if")
        case None => None
        case Some(Err) => Some(Err)
        case Some(Ok(body, rest)) => Prepend([TplIf(condition, body, [])], Exact(fuel - 1, all, rest, endTag))
        case Some(Else(body, els, rest)) => Prepend([TplIf(condition, body, els)], Exact(fuel - 1, all, rest, endTag))
        case Some(Restart(els)) => Prepend([TplIf(condition, [], els)], Exact(fuel - 1, all, all, endTag)))
      case OpensEach(expr) =>
        match Exact(fuel - 1, all, ts[1..], "/each")
        case None => None
        case Some(Ok(body, rest)) => Prepend([TplEach(expr, body)], Exact(fuel - 1, all, rest, endTag))
        case Some(_) => Some(Err)
  }

  // ---------- The parser without steps ----------

  /** As Out; Twice is a second `#else`, Diverges an `#if` that met one. */
  datatype Parse =
    | Parsed(nodes: seq<Node>, rest: seq<Segment>)
    | WithElse(nodes: seq<Node>, elseNodes: seq<Node>, rest: seq<Segment>)
    | Twice(third: seq<Node>)
    | Failed
    | Diverges

  function Behind(node: Node, p: Parse): Parse {
    match p
    case Parsed(more, rest) => Parsed([node] + more, rest)
    case WithElse(more, els, rest) => WithElse([node] + more, els, rest)
    case _ => p
  }

  function Blocks(ts: seq<Segment>, endTag: string): (p: Parse)
    ensures p.Parsed? || p.WithElse? ==> |p.rest| <= |ts|
    decreases |ts|
  {
    if ts == [] then (if endTag != "" then Failed else Parsed([], []))
    else if ts[0].Unclosed? then Failed
    else if !ts[0].Tag? then Behind(Leaf(ts[0]), Blocks(ts[1..], endTag))
    else
      match Classify(ts[0].tag, endTag)
      case Closes => Parsed([], ts[1..])
      case Plain => Behind(Leaf(ts[0]), Blocks(ts[1..], endTag))
      case Elses => AfterElse(Blocks(ts[1..], "/if"))
      case OpensIf(condition) => (
        match Blocks(ts[1..], "/if")
        case Failed => Failed
        case Diverges => Diverges
        case Twice(_) => Diverges
        case Parsed(body, rest) => Behind(TplIf(condition, body, []), Blocks(rest, endTag))
        case WithElse(body, els, rest) => Behind(TplIf(condition, body, els), Blocks(rest, endTag)))
      case OpensEach(expr) =>
        match Blocks(ts[1..], "/each")
        case Diverges => Diverges
        case Parsed(body, rest) => Behind(TplEach(expr, body), Blocks(rest, endTag))
        case _ => Failed
  }

  function AfterElse(p: Parse): Parse {
    match p
    case Parsed(elseNodes, rest) => WithElse([], elseNodes, rest)
    case WithElse(_, third, _) => Twice(third)
    case Twice(third) => Twice(third)
    case Failed => Failed
    case Diverges => Diverges
  }

  /** How an outcome looks to the caller. */
  function Returned(p: Parse): Out {
    match p
    case Parsed(nodes, rest) => Ok(nodes, rest)
    case WithElse(nodes, els, rest) => Else(nodes, els, rest)
    case Twice(third) => Restart(third)
    case _ => Err
  }

  lemma {:induction false} FuelMore(fuel: nat, more: nat, all: seq<Segment>, ts: seq<Segment>, endTag: string)
    requires fuel <= more && Exact(fuel, all, ts, endTag).Some?
    ensures Exact(more, all, ts, endTag) == Exact(fuel, all, ts, endTag)
    decreases fuel
  {
    hide Trim, StartsWith, Classify;
    if ts != [] && !ts[0].Unclosed? {
      var d := if ts[0].Tag? then Classify(ts[0].tag, endTag) else Plain;
      if d.Plain? {
        FuelMore(fuel - 1, more - 1, all, ts[1..], endTag);
      } else if !d.Closes? {
        var inner := if d.OpensEach? then "/each" else "/if";
        FuelMore(fuel - 1, more - 1, all, ts[1..], inner);
        var r := Exact(fuel - 1, all, ts[1..], inner).value;
        if r.Restart? && d.OpensIf? {
          FuelMore(fuel - 1, more - 1, all, all, endTag);
        } else if (d.OpensIf? && r.Else?) || (!d.Elses? && r.Ok?) {
          FuelMore(fuel - 1, more - 1, all, r.rest, endTag);
        }
      }
    }
  }

  /** Unless it diverges, a step per segment is enough, and the parser returns the specified outcome. */
  lemma {:induction false} Terminates(fuel: nat, all: seq<Segment>, ts: seq<Segment>, endTag: string)
    requires fuel > |ts| && !Blocks(ts, endTag).Diverges?
    ensures Exact(fuel, all, ts, endTag) == Some(Returned(Blocks(ts, endTag)))
    decreases |ts|, 1
  {
    hide Trim, StartsWith, Classify;
    if ts != [] && !ts[0].Unclosed? {
      var d := if ts[0].Tag? then Classify(ts[0].tag, endTag) else Plain;
      if d.Plain? {
        Terminates(fuel - 1, all, ts[1..], endTag);
      } else if d.OpensIf? {
        IfTerminates(fuel, all, ts, endTag);
      } else if d.OpensEach? {
        EachTerminates(fuel, all, ts, endTag);
      } else if d.Elses? {
        Terminates(fuel - 1, all, ts[1..], "/if");
      }
    }
  }

  lemma {:induction false} IfTerminates(fuel: nat, all: seq<Segment>, ts: seq<Segment>, endTag: string)
    requires fuel > |ts| > 0 && ts[0].Tag? && Classify(ts[0].tag, endTag).OpensIf? && !Blocks(ts, endTag).Diverges?
    ensures Exact(fuel, all, ts, endTag) == Some(Returned(Blocks(ts, endTag)))
    decreases |ts|, 0
  {
    hide Trim, StartsWith, Classify;
    Terminates(fuel - 1, all, ts[1..], "/if");
    var p := Blocks(ts[1..], "/if");
    if p.Parsed? || p.WithElse? {
      Terminates(fuel - 1, all, p.rest, endTag);
    }
  }

  lemma {:induction false} EachTerminates(fuel: nat, all: seq<Segment>, ts: seq<Segment>, endTag: string)
    requires fuel > |ts| > 0 && ts[0].Tag? && Classify(ts[0].tag, endTag).OpensEach? && !Blocks(ts, endTag).Diverges?
    ensures Exact(fuel, all, ts, endTag) == Some(Returned(Blocks(ts, endTag)))
    decreases |ts|, 0
  {
    hide Trim, StartsWith, Classify;
    Terminates(fuel - 1, all, ts[1..], "/each");
    SentinelOnlyInIf(ts[1..], "/each");
    var p := Blocks(ts[1..], "/each");
    if p.Parsed? {
      Terminates(fuel - 1, all, p.rest, endTag);
    }
  }

  /** Only the body of an `#if` answers with the sentinel. */
  lemma {:induction false} SentinelOnlyInIf(ts: seq<Segment>, endTag: string)
    requires endTag != "/if"
    ensures !Blocks(ts, endTag).WithElse? && !Blocks(ts, endTag).Twice?
    decreases |ts|
  {
    if ts != [] && !ts[0].Unclosed? {
      var d := if ts[0].Tag? then Classify(ts[0].tag, endTag) else Plain;
      if d.Plain? {
        SentinelOnlyInIf(ts[1..], endTag);
      } else if !d.Closes? {
        var p := Blocks(ts[1..], if d.OpensEach? then "/each" else "/if");
        if p.Parsed? || p.WithElse? {
          SentinelOnlyInIf(p.rest, endTag);
        }
      }
    }
  }

  // ---------- A second #else ----------

  /** An `#if` with two `#else`, at the head of ts. */
  predicate Doubled(ts: seq<Segment>) {
    ts != [] && ts[0].Tag? && StartsWith(ts[0].tag, "#if ") && Blocks(ts[1..], "/if").Twice?
  }

  /** The end tag of the block that the first segment opens or continues. */
  function InnerEnd(ts: seq<Segment>, endTag: string): string
    requires ts != []
  {
    if !ts[0].Tag? then endTag
    else match Classify(ts[0].tag, endTag)
      case Plain => endTag
      case OpensEach(_) => "/each"
      case _ => "/if"
  }

  /** Divergence comes from inside, from behind, or from an `#if` that has two `#else`. */
  lemma DivergesFrom(ts: seq<Segment>, endTag: string)
    requires Blocks(ts, endTag).Diverges?
    ensures ts != []
    ensures var p := Blocks(ts[1..], InnerEnd(ts, endTag));
            p.Diverges? || Doubled(ts) || ((p.Parsed? || p.WithElse?) && Blocks(p.rest, endTag).Diverges?)
  {
    hide Trim, StartsWith, Classify;
    if ts[0].Tag? && Classify(ts[0].tag, endTag).OpensIf? {
      OpensAsIf(ts[0].tag, endTag);
    }
  }

  lemma OpensAsIf(tag: string, endTag: string)
    requires Classify(tag, endTag).OpensIf?
    ensures StartsWith(tag, "#if ")
  {
  }

  lemma {:induction false} DivergesAt(ts: seq<Segment>, endTag: string)
    requires Blocks(ts, endTag).Diverges?
    ensures exists m :: 0 <= m < |ts| && Doubled(ts[m..])
    decreases |ts|
  {
    hide Blocks, Doubled, InnerEnd;
    DivergesFrom(ts, endTag);
    var inner := InnerEnd(ts, endTag);
    var p := Blocks(ts[1..], inner);
    if Doubled(ts) {
      assert ts[0..] == ts;
    } else if p.Diverges? {
      DivergesAt(ts[1..], inner);
      LaterDoubled(ts, 1);
    } else {
      RestIsSuffix(ts[1..], inner);
      var k := |ts| - |p.rest|;
      assert p.rest == ts[k..];
      DivergesAt(p.rest, endTag);
      LaterDoubled(ts, k);
    }
  }

  lemma LaterDoubled(ts: seq<Segment>, k: nat)
    requires k <= |ts| && exists m :: 0 <= m < |ts[k..]| && Doubled(ts[k..][m..])
    ensures exists m :: 0 <= m < |ts| && Doubled(ts[m..])
  {
    hide Doubled;
    var m :| 0 <= m < |ts[k..]| && Doubled(ts[k..][m..]);
    assert ts[k..][m..] == ts[k + m..];
  }

  predicate IsSuffix(a: seq<Segment>, ts: seq<Segment>) {
    |a| <= |ts| && a == ts[|ts| - |a|..]
  }

  lemma SuffixOfSuffix(a: seq<Segment>, b: seq<Segment>, ts: seq<Segment>)
    requires IsSuffix(a, b) && ts != [] && IsSuffix(b, ts[1..])
    ensures IsSuffix(a, ts)
  {
  }

  lemma Tail(ts: seq<Segment>)
    requires ts != []
    ensures IsSuffix(ts[1..], ts) && IsSuffix(ts[1..], ts[1..])
  {
  }

  lemma {:induction false} RestIsSuffix(ts: seq<Segment>, endTag: string)
    ensures var p := Blocks(ts, endTag); p.Parsed? || p.WithElse? ==> IsSuffix(p.rest, ts)
    decreases |ts|
  {
    hide IsSuffix, Trim, StartsWith, Classify;
    if ts == [] {
      NoSuffix();
    } else if !ts[0].Unclosed? {
      Tail(ts);
      var d := if ts[0].Tag? then Classify(ts[0].tag, endTag) else Plain;
      if !d.Closes? {
        var inner := InnerEnd(ts, endTag);
        RestIsSuffix(ts[1..], inner);
        var p := Blocks(ts[1..], inner);
        if p.Parsed? || p.WithElse? {
          SuffixOfSuffix(p.rest, ts[1..], ts);
          if d.OpensIf? || d.OpensEach? {
            RestIsSuffix(p.rest, endTag);
            var q := Blocks(p.rest, endTag);
            if q.Parsed? || q.WithElse? {
              SuffixOfSuffix(q.rest, p.rest, ts);
            }
          }
        }
      }
    }
  }

  lemma NoSuffix()
    ensures IsSuffix([], [])
  {
  }

  /** A position not beyond m. */
  predicate UpTo(all: seq<Segment>, rest: seq<Segment>, m: nat) {
    |all| - |rest| <= m && |rest| <= |all| && rest == all[|all| - |rest|..]
  }

  /** Results that stay behind m: only a block can return, with a position up to m or with position 0. */
  predicate Behindhand(r: Option<Out>, all: seq<Segment>, endTag: string, m: nat) {
    r.Some? ==>
      && endTag != "" && !r.value.Err? && (r.value.Else? || r.value.Restart? ==> endTag == "/if")
      && (r.value.Ok? || r.value.Else? ==> UpTo(all, r.value.rest, m))
  }

  lemma PrependBehindhand(nodes: seq<Node>, r: Option<Out>, all: seq<Segment>, endTag: string, m: nat)
    requires Behindhand(r, all, endTag, m)
    ensures Behindhand(Prepend(nodes, r), all, endTag, m)
  {
  }

  /**
   * An `#if` with two `#else` is never passed: from any position up to it, and inside any block, the parser stays
   * behind it or takes more steps, whatever closing tags the text before it may offer.
   */
  lemma {:induction false} NeverPasses(fuel: nat, all: seq<Segment>, ts: seq<Segment>, endTag: string, m: nat)
    requires endTag in {"", "/if", "/each"} && m < |all| && Doubled(all[m..]) && UpTo(all, ts, m) && (forall k :: 0 <= k < m ==> !all[k].Unclosed?)
    ensures Behindhand(Exact(fuel, all, ts, endTag), all, endTag, m)
    decreases fuel, 1
  {
    hide Exact, Doubled, Behindhand;
    if fuel > 0 {
      var k := |all| - |ts|;
      assert ts[0] == all[k];
      if k == m {
        assert ts == all[m..];
        NeverLeavesDoubled(fuel, all, ts, endTag, m);
      } else {
        assert ts[1..] == all[k + 1..];
        NeverPassesNext(fuel, all, ts, endTag, m);
      }
    } else {
      NothingYet(all, ts, endTag, m);
    }
  }

  lemma NothingYet(all: seq<Segment>, ts: seq<Segment>, endTag: string, m: nat)
    ensures Behindhand(Exact(0, all, ts, endTag), all, endTag, m)
  {
  }

  lemma {:induction false} NeverLeavesDoubled(fuel: nat, all: seq<Segment>, ts: seq<Segment>, endTag: string, m: nat)
    requires endTag in {"", "/if", "/each"} && fuel > 0 && m < |all| && ts == all[m..] && Doubled(all[m..]) && (forall k :: 0 <= k < m ==> !all[k].Unclosed?)
    ensures Behindhand(Exact(fuel, all, ts, endTag), all, endTag, m)
    decreases fuel, 0
  {
    hide Behindhand, UpTo, Blocks, Trim;
    AtDoubled(fuel - 1, all, ts);
    OpensAnyway(ts[0].tag, endTag);
    NothingYet(all, ts, endTag, m);
    assert UpTo(all, all, m) by {
      AtStart(all, m);
    }
    NeverPasses(fuel - 1, all, all, endTag, m);
    var again := Exact(fuel - 1, all, all, endTag);
    var r := Exact(fuel - 1, all, ts[1..], "/if");
    if r.Some? {
      PrependBehindhand([TplIf(Trim(ts[0].tag[4..]), [], r.value.elseNodes)], again, all, endTag, m);
    } else {
      NoneBehindhand(all, endTag, m);
    }
  }

  lemma AtStart(all: seq<Segment>, m: nat)
    ensures UpTo(all, all, m)
  {
    assert all[0..] == all;
  }

  lemma NoneBehindhand(all: seq<Segment>, endTag: string, m: nat)
    ensures Behindhand(None, all, endTag, m)
  {
  }

  /** An opening `#if` is one in every block. */
  lemma OpensAnyway(tag: string, endTag: string)
    requires StartsWith(tag, "#if ") && endTag in {"", "/if", "/each"}
    ensures Classify(tag, endTag) == OpensIf(Trim(tag[4..]))
  {
    hide Trim;
    assert tag[0] == '#' && tag[1] == 'i';
  }

  lemma ClassifiedClose(tag: string, endTag: string)
    requires Classify(tag, endTag).Closes?
    ensures endTag != "" && tag == endTag
  {
  }

  lemma ClassifiedElse(tag: string, endTag: string)
    requires Classify(tag, endTag).Elses?
    ensures endTag == "/if" && tag == "#else"
  {
  }

  lemma {:induction false} NeverPassesNext(fuel: nat, all: seq<Segment>, ts: seq<Segment>, endTag: string, m: nat)
    requires endTag in {"", "/if", "/each"} && fuel > 0 && ts != [] && m < |all| && Doubled(all[m..]) && (forall k :: 0 <= k < m ==> !all[k].Unclosed?)
    requires !ts[0].Unclosed? && UpTo(all, ts[1..], m)
    ensures Behindhand(Exact(fuel, all, ts, endTag), all, endTag, m)
    decreases fuel, 0
  {
    hide Doubled, UpTo, Trim, StartsWith, Classify;
    var d := if ts[0].Tag? then Classify(ts[0].tag, endTag) else Plain;
    if d.Plain? {
      NeverPasses(fuel - 1, all, ts[1..], endTag, m);
    } else if d.Closes? {
      ClassifiedClose(ts[0].tag, endTag);
    } else {
      if d.Elses? {
        ClassifiedElse(ts[0].tag, endTag);
      }
      var inner := if d.OpensEach? then "/each" else "/if";
      NeverPasses(fuel - 1, all, ts[1..], inner, m);
      var r := Exact(fuel - 1, all, ts[1..], inner);
      if r.Some? && !d.Elses? {
        if r.value.Restart? {
          AtStart(all, m);
          NeverPasses(fuel - 1, all, all, endTag, m);
        } else {
          NeverPasses(fuel - 1, all, r.value.rest, endTag, m);
        }
      }
    }
  }

  /** The `#if` itself gets the sentinel with position 0. */
  lemma AtDoubled(fuel: nat, all: seq<Segment>, ts: seq<Segment>)
    requires Doubled(ts)
    ensures var r := Exact(fuel, all, ts[1..], "/if"); r.Some? ==> r.value.Restart?
  {
    if Exact(fuel, all, ts[1..], "/if").Some? {
      FuelMore(fuel, fuel + |ts|, all, ts[1..], "/if");
      Terminates(fuel + |ts|, all, ts[1..], "/if");
    }
  }

  /** Parsing a whole template ends. */
  ghost predicate Ends(all: seq<Segment>) {
    exists fuel :: Exact(fuel, all, all, "").Some?
  }

  lemma NeverEnds(all: seq<Segment>, fuel: nat)
    requires forall k :: 0 <= k < |all| - 1 ==> !all[k].Unclosed?
    requires Blocks(all, "").Diverges?
    ensures Exact(fuel, all, all, "").None?
  {
    hide Exact, Blocks, Doubled;
    DivergesAt(all, "");
    var m :| 0 <= m < |all| && Doubled(all[m..]);
    AtStart(all, m);
    DoubledIsLong(all[m..]);
    NeverPasses(fuel, all, all, "", m);
  }

  lemma DoubledIsLong(ts: seq<Segment>)
    requires Doubled(ts)
    ensures |ts| > 1
  {
  }

  /** Parsing a template ends exactly when no `#if` that is reached has a second `#else`. */
  lemma ParsingEndsIff(all: seq<Segment>)
    requires forall k :: 0 <= k < |all| - 1 ==> !all[k].Unclosed?
    ensures Ends(all) <==> !Blocks(all, "").Diverges?
    ensures !Blocks(all, "").Diverges? ==> Exact(|all| + 1, all, all, "") == Some(Returned(Blocks(all, "")))
  {
    hide Exact, Blocks;
    if !Blocks(all, "").Diverges? {
      Terminates(|all| + 1, all, all, "");
    } else if Ends(all) {
      var fuel: nat :| Exact(fuel, all, all, "").Some?;
      NeverEnds(all, fuel);
    }
  }
}
