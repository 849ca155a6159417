/** What templates are read as, text by text. */
module TemplateRules {
  import opened Options
  import opened TemplateParsing
  import opened Templates
  import opened TemplatePrinting

  // The texts are written out; what stands inside blocks is any text that is read as these nodes there.

  /** What follows a keyword or stands in an expression: not empty, without blanks at its ends and closing braces. */
  predicate Written(c: string) {
    c != "" && TagText(c)
  }

  lemma TagWritten(keyword: string, c: string)
    ensures PrintTag(keyword + c) == "{{ " + keyword + c + " }}"
  {
  }

  lemma Joined(a: string, b: string, c: string, d: string, e: string)
    ensures a + b + (c + d) + e == a + b + c + d + e && a + b + "" + e == a + b + e
  {
  }

  /** A condition, its branch and its other branch. */
  lemma IfRead(c: string, thn: seq<Node>, els: seq<Node>)
    requires Written(c) && AllNormal(thn, "/if", false) && AllNormal(els, "/if", false) && els != []
    ensures TemplateOf("{{ " + "#if " + c + " }}" + PrintAll(thn) + "{{ #else }}" + PrintAll(els) + "{{ /if }}") ==
            Some([TplIf(c, thn, els)])
  {
    hide TemplateOf, PrintAll, AllNormal, TagText;
    OneNode(TplIf(c, thn, els));
    TagWritten("#if ", c);
    assert PrintTag("#else") == "{{ #else }}" && PrintTag("/if") == "{{ /if }}";
    Joined("{{ " + "#if " + c + " }}", PrintAll(thn), "{{ #else }}", PrintAll(els), "{{ /if }}");
  }

  lemma IfOnlyRead(c: string, thn: seq<Node>)
    requires Written(c) && AllNormal(thn, "/if", false)
    ensures TemplateOf("{{ " + "#if " + c + " }}" + PrintAll(thn) + "{{ /if }}") == Some([TplIf(c, thn, [])])
  {
    hide TemplateOf, PrintAll, TagText;
    OneNode(TplIf(c, thn, []));
    TagWritten("#if ", c);
    assert PrintTag("/if") == "{{ /if }}";
    Joined("{{ " + "#if " + c + " }}", PrintAll(thn), "", "", "{{ /if }}");
  }

  lemma EachRead(e: string, body: seq<Node>)
    requires Written(e) && AllNormal(body, "/each", false)
    ensures TemplateOf("{{ " + "#each " + e + " }}" + PrintAll(body) + "{{ /each }}") == Some([TplEach(e, body)])
  {
    hide TemplateOf, PrintAll, AllNormal, TagText;
    OneNode(TplEach(e, body));
    TagWritten("#each ", e);
    assert PrintTag("/each") == "{{ /each }}";
  }

  /** Text, an expression, and a raw block, whose content is not looked at. */
  lemma LeavesRead(t: string, e: string, raw: string)
    requires t != "" && Lacks(t, "{{") && Lacks(raw, "{{/raw}}")
    requires Written(e) && e != "raw" && !StartsWith(e, "#if ") && !StartsWith(e, "#each ")
    ensures TemplateOf(t) == Some([TplText(t)])
    ensures TemplateOf("{{ " + e + " }}") == Some([TplExpr(e)])
    ensures TemplateOf("{{ raw }}" + raw + "{{/raw}}") == Some([TplRaw(raw)])
  {
    hide TemplateOf, TagText, StartsWith, Lacks;
    OneNode(TplText(t));
    OneNode(TplExpr(e));
    OneNode(TplRaw(raw));
    assert PrintTag("raw") == "{{ raw }}";
  }

  /** A block that is not closed, a tag that is not closed, and a raw block that is not closed are errors. */
  lemma Unclosed(c: string)
    requires Written(c)
    ensures TemplateOf("{{ " + "#if " + c + " }}") == None && TemplateOf("{{ " + "#each " + c + " }}") == None
  {
    UnclosedBlock("#if ", c);
    UnclosedBlock("#each ", c);
  }

  lemma UnclosedBlock(keyword: string, c: string)
    requires (keyword == "#if " || keyword == "#each ") && Written(c)
    ensures TemplateOf("{{ " + keyword + c + " }}") == None
  {
    hide Index, Trim, TagText, ScanTag, Classify;
    var tag := keyword + c;
    BlockTag(keyword, c);
    ScanPrintedTag(tag, "");
    assert PrintTag(tag) + "" == "{{ " + keyword + c + " }}";
    Opens(keyword, c, "");
    assert Scan("") == [];
    var ts := [Tag(tag)] + [];
    assert ts[1..] == [];
    assert Blocks([], if keyword == "#if " then "/if" else "/each") == Failed;
  }

  lemma OneNode(n: Node)
    requires Normal(n, "", true)
    ensures TemplateOf(Print(n)) == Some([n])
  {
    hide Normal, Print, TemplateOf;
    assert [n][1..] == [];
    assert AllNormal([n], "", true);
    PrintedParsesBack([n]);
    assert PrintAll([n]) == Print(n) + "" == Print(n);
  }
}
