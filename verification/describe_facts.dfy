/** The expected outputs of the describe format, and how its parts fit together. */
module DescribeFacts {
  import opened Wrappers
  import opened SourceModel
  import opened TokenWriting
  import opened StringUtil
  import opened DescribeFormat

  /** A string with no character the writer escapes. */
  predicate Plain(s: string)
  {
    forall i :: 0 <= i < |s| ==> !NeedsEscape(s[i])
  }

  lemma QuotedPlain(s: string)
    requires Plain(s)
    ensures Quoted(s) == "\"" + s + "\""
  {
    EscapedPlain(s);
  }

  /** `source_range(1, 0, 2, 5)` prints with its lines lowered by one. */
  lemma RangeTextExample()
    ensures RangeText(MakeSourceRange(1, 0, 2, 5)) == "{ 0:0 1:5 }"
  {
    assert Decimal(0) == "0";
    assert Decimal(1) == "1";
    assert Decimal(5) == "5";
  }

  /** An element's header when its name and description need no escape. */
  lemma HeaderPlain(e: StructureElement)
    requires HasOneBasedLines(e.sourcerange) && Plain(e.name) && Plain(e.typeDesc)
    ensures HeaderText(e)
         == KindName(e.kind) + " { \"" + e.name + "\" " + RangeText(e.sourcerange) + " {} \"" + e.typeDesc + "\" {}"
  {
    QuotedPlain(e.name);
    QuotedPlain(e.typeDesc);
  }

  lemma LeafHeaderLiterals()
    ensures "Var" + " { \"" + "blah" + "\" " == "Var { \"blah\" "
    ensures "Var { \"blah\" " + "{ 0:0 1:5 }" + " {} \"" == "Var { \"blah\" { 0:0 1:5 } {} \""
  {
    assert "Var" + " { \"" == "Var { \"";
    assert "Var { \"" + "blah" == "Var { \"blah";
    assert "Var { \"blah\" " + "{ 0:0 1:5 }" == "Var { \"blah\" { 0:0 1:5 }";
  }

  lemma LeafElementLiterals()
    ensures "Var { \"blah\" { 0:0 1:5 } {} \"" + "desc" + "\" {}" + " " + "}"
         == "Var { \"blah\" { 0:0 1:5 } {} \"desc\" {} }"
  {
    assert "Var { \"blah\" { 0:0 1:5 } {} \"" + "desc" == "Var { \"blah\" { 0:0 1:5 } {} \"desc";
    assert "Var { \"blah\" { 0:0 1:5 } {} \"desc" + "\" {}" == "Var { \"blah\" { 0:0 1:5 } {} \"desc\" {}";
  }

  /** A childless element: `Var { "blah" { 0:0 1:5 } {} "desc" {} }`. */
  lemma LeafElementExample()
    ensures ElementText(StructureElement("blah", Var, MakeSourceRange(1, 0, 2, 5), "desc", []), 0)
         == "Var { \"blah\" { 0:0 1:5 } {} \"desc\" {} }"
  {
    RangeTextExample();
    HeaderPlain(StructureElement("blah", Var, MakeSourceRange(1, 0, 2, 5), "desc", []));
    LeafHeaderLiterals();
    LeafElementLiterals();
  }

  lemma NestedRangesExample()
    ensures RangeText(MakeSourceRange(1, 0, 1, 34)) == "{ 0:0 0:34 }"
    ensures RangeText(MakeSourceRange(1, 12, 1, 32)) == "{ 0:12 0:32 }"
  {
    assert Decimal(0) == "0";
    assert Decimal(12) == "12" by { assert Decimal(1) == "1"; assert Decimal(2) == "2"; }
    assert Decimal(32) == "32" by { assert Decimal(3) == "3"; assert Decimal(2) == "2"; }
    assert Decimal(34) == "34" by { assert Decimal(3) == "3"; assert Decimal(4) == "4"; }
  }

  lemma ModLineLiterals()
    ensures "Mod" + " { \"" + "myMod" + "\" " + "{ 0:0 0:34 }" == "Mod { \"myMod\" { 0:0 0:34 }"
    ensures "Mod { \"myMod\" { 0:0 0:34 }" + " {} \"" + "" + "\" {}" == "Mod { \"myMod\" { 0:0 0:34 } {} \"\" {}"
  {
    assert "Mod" + " { \"" == "Mod { \"";
    assert "Mod { \"" + "myMod" == "Mod { \"myMod";
    assert "Mod { \"myMod" + "\" " == "Mod { \"myMod\" ";
    assert "Mod { \"myMod\" { 0:0 0:34 }" + " {} \"" == "Mod { \"myMod\" { 0:0 0:34 } {} \"";
  }

  lemma VarLineLiterals()
    ensures "Var" + " { \"" + "xx" + "\" " + "{ 0:12 0:32 }" == "Var { \"xx\" { 0:12 0:32 }"
    ensures "Var { \"xx\" { 0:12 0:32 }" + " {} \"" + "u32" + "\" {}" + " " + "}"
         == "Var { \"xx\" { 0:12 0:32 } {} \"u32\" {} }"
  {
    assert "Var" + " { \"" == "Var { \"";
    assert "Var { \"" + "xx" == "Var { \"xx";
    assert "Var { \"xx" + "\" " == "Var { \"xx\" ";
    assert "Var { \"xx\" { 0:12 0:32 }" + " {} \"" == "Var { \"xx\" { 0:12 0:32 } {} \"";
    assert "Var { \"xx\" { 0:12 0:32 } {} \"" + "u32" == "Var { \"xx\" { 0:12 0:32 } {} \"u32";
    assert "Var { \"xx\" { 0:12 0:32 } {} \"u32" + "\" {}" == "Var { \"xx\" { 0:12 0:32 } {} \"u32\" {}";
  }

  /** Lays out an element with children at depth `level` as the pieces it is written in. */
  lemma ElementTextWithChildren(e: StructureElement, level: nat, header: string, children: string)
    requires ElementPrintable(e) && e.children != []
    requires HeaderText(e) == header && ChildrenText(e.children, level + 1) == children
    ensures ElementText(e, level) == header + children + "\n" + Indent(level) + "}"
  {
  }

  /** The static of the module below, one level deep. */
  lemma NestedChildExample()
    ensures ElementText(StructureElement("xx", Var, MakeSourceRange(1, 12, 1, 32), "u32", []), 1)
         == "Var { \"xx\" { 0:12 0:32 } {} \"u32\" {} }"
  {
    NestedRangesExample();
    HeaderPlain(StructureElement("xx", Var, MakeSourceRange(1, 12, 1, 32), "u32", []));
    VarLineLiterals();
  }

  /** The header of the module below. */
  lemma NestedHeaderExample(children: seq<StructureElement>)
    ensures HeaderText(StructureElement("myMod", Mod, MakeSourceRange(1, 0, 1, 34), "", children))
         == "Mod { \"myMod\" { 0:0 0:34 } {} \"\" {}"
  {
    NestedRangesExample();
    HeaderPlain(StructureElement("myMod", Mod, MakeSourceRange(1, 0, 1, 34), "", children));
    ModLineLiterals();
  }

  /**
   * A module holding one static, as the visitor builds it for
   * `mod myMod { static xx : u32 = 2; }`: the static on a line of its own,
   * indented by two spaces, and the closing brace on the line after it.
   */
  lemma NestedElementExample()
    ensures ElementText(
              StructureElement("myMod", Mod, MakeSourceRange(1, 0, 1, 34), "",
                [StructureElement("xx", Var, MakeSourceRange(1, 12, 1, 32), "u32", [])]), 0)
         == "Mod { \"myMod\" { 0:0 0:34 } {} \"\" {}" + "\n"
          + "  " + "Var { \"xx\" { 0:12 0:32 } {} \"u32\" {} }" + "\n"
          + "}"
  {
    var child := StructureElement("xx", Var, MakeSourceRange(1, 12, 1, 32), "u32", []);
    var children := [child];
    var e := StructureElement("myMod", Mod, MakeSourceRange(1, 0, 1, 34), "", children);
    var childText := "Var { \"xx\" { 0:12 0:32 } {} \"u32\" {} }";
    NestedChildExample();
    NestedHeaderExample(children);
    assert Indent(1) == "  ";
    assert children[..0] == [];
    assert ChildrenText(children, 1) == "\n" + "  " + childText;
    ElementTextWithChildren(e, 0, "Mod { \"myMod\" { 0:0 0:34 } {} \"\" {}", "\n" + "  " + childText);
    assert Indent(0) == "";
    assert "\n" + Indent(0) + "}" == "\n" + "}";
  }

  lemma MessageRangeExample()
    ensures OptRangeText(Some(MakeSourceRange(1, 2, 1, 6))) == "{ 0:2 0:6 } "
  {
    assert Decimal(0) == "0";
    assert Decimal(2) == "2";
    assert Decimal(6) == "6";
  }

  /** Lays out a message as the pieces it is written in. */
  lemma MessageTextParts(m: SourceMessage, level: string, range: string, text: string)
    requires MessagePrintable(m)
    requires LevelText(m.severity) == level && OptRangeText(m.sourcerange) == range && Quoted(m.message) == text
    ensures MessageText(m) == "{ " + level + range + text + " }\n"
  {
  }

  /** A parse error reported for the range 1:2 to 1:6, as in `{ ERROR { 0:2 0:6 } "expected `[`, found `blah`" }`. */
  lemma MessageExample(text: string)
    requires Plain(text)
    ensures MessageText(SourceMessage(ERROR, Some(MakeSourceRange(1, 2, 1, 6)), text))
         == "{ ERROR { 0:2 0:6 } \"" + text + "\" }\n"
  {
    MessageRangeExample();
    QuotedPlain(text);
    MessageTextParts(SourceMessage(ERROR, Some(MakeSourceRange(1, 2, 1, 6)), text),
      "ERROR ", "{ 0:2 0:6 } ", "\"" + text + "\"");
  }

  /** The output for an empty source: no message, no element. */
  lemma EmptyAnalysisExample()
    ensures AnalysisText([], []) == "RUST_PARSE_DESCRIBE 1.0 {\nMESSAGES {\n}\n\n}"
  {
  }
}
