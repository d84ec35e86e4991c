/**
 * The describe writer of src/parse_describe.rs: each `output_*` / `write_*`
 * function writes, piece by piece through a `TokenWriter`, the text that
 * DescribeFormat defines, and returns at the first write that fails. Every
 * method is proved to leave the sink holding what it held before followed by
 * as much of that text as fitted, and to fail exactly when not all of it did.
 */
module DescribeWriter {
  import opened Wrappers
  import opened SourceModel
  import opened CharOutput
  import opened StringUtil
  import opened TokenWriting
  import opened DescribeFormat
  import opened DescribeElementReader
  import opened SeqUtil

  /* ----------------- messages ----------------- */

  /** `output_Level`: the severity's name as a raw token. */
  method OutputLevel(lvl: Severity, tw: TokenWriter) returns (r: Outcome)
    modifies tw.out
    ensures Wrote(tw.out.capacity, old(tw.out.text), tw.out.text, LevelText(lvl), r)
  {
    LetterWordIsRawToken(SeverityName(lvl));
    r := tw.WriteRawToken(SeverityName(lvl));
  }

  /**
   * `output_SourceRange`. The positions are one formatted write; a sink that
   * stops at the first failing piece writes the same as one that takes the
   * whole formatted text at once, so that write is modelled as one.
   */
  method OutputSourceRange(sr: SourceRange, tw: TokenWriter) returns (r: Outcome)
    requires HasOneBasedLines(sr)
    modifies tw.out
    ensures Wrote(tw.out.capacity, old(tw.out.text), tw.out.text, RangeText(sr), r)
  {
    ghost var before, cap := tw.out.text, tw.out.capacity;
    r := tw.WriteRaw("{ ");
    if r.Fail? { WroteCut(cap, before, tw.out.text, "{ ", RangeText(sr)); return; }
    ghost var mid := tw.out.text;
    r := tw.out.WriteStr(PositionsText(sr));
    WroteThen(cap, before, mid, "{ ", tw.out.text, PositionsText(sr), r);
    if r.Fail? { WroteCut(cap, before, tw.out.text, "{ " + PositionsText(sr), RangeText(sr)); return; }
    mid := tw.out.text;
    r := tw.WriteRaw("}");
    WroteThen(cap, before, mid, "{ " + PositionsText(sr), tw.out.text, "}", r);
  }

  /** `output_opt_SourceRange`: `{ }` for a missing range, then one space. */
  method OutputOptSourceRange(sr: Option<SourceRange>, tw: TokenWriter) returns (r: Outcome)
    requires OptRangePrintable(sr)
    modifies tw.out
    ensures Wrote(tw.out.capacity, old(tw.out.text), tw.out.text, OptRangeText(sr), r)
  {
    ghost var before, cap := tw.out.text, tw.out.capacity;
    ghost var range := match sr case None => "{ }" case Some(x) => RangeText(x);
    match sr {
      case None =>
        r := tw.WriteRaw("{ }");
      case Some(x) =>
        r := OutputSourceRange(x, tw);
    }
    if r.Fail? { WroteCut(cap, before, tw.out.text, range, OptRangeText(sr)); return; }
    ghost var mid := tw.out.text;
    r := tw.WriteRaw(" ");
    WroteThen(cap, before, mid, range, tw.out.text, " ", r);
  }

  /** `output_message`. */
  method OutputMessage(tw: TokenWriter, m: SourceMessage) returns (r: Outcome)
    requires MessagePrintable(m)
    modifies tw.out
    ensures Wrote(tw.out.capacity, old(tw.out.text), tw.out.text, MessageText(m), r)
  {
    ghost var before, cap := tw.out.text, tw.out.capacity;
    ghost var level, range, q := LevelText(m.severity), OptRangeText(m.sourcerange), Quoted(m.message);
    r := tw.WriteRaw("{ ");
    if r.Fail? { WroteCut(cap, before, tw.out.text, "{ ", MessageText(m)); return; }
    ghost var mid := tw.out.text;
    r := OutputLevel(m.severity, tw);
    WroteThen(cap, before, mid, "{ ", tw.out.text, level, r);
    if r.Fail? { WroteCut(cap, before, tw.out.text, "{ " + level, MessageText(m)); return; }
    mid := tw.out.text;
    r := OutputOptSourceRange(m.sourcerange, tw);
    WroteThen(cap, before, mid, "{ " + level, tw.out.text, range, r);
    if r.Fail? { WroteCut(cap, before, tw.out.text, "{ " + level + range, MessageText(m)); return; }
    mid := tw.out.text;
    r := tw.WriteStringToken(m.message);
    WroteThen(cap, before, mid, "{ " + level + range, tw.out.text, q + " ", r);
    if r.Fail? { WroteCut(cap, before, tw.out.text, "{ " + level + range + (q + " "), MessageText(m)); return; }
    mid := tw.out.text;
    r := tw.WriteRaw("}\n");
    WroteThen(cap, before, mid, "{ " + level + range + (q + " "), tw.out.text, "}\n", r);
  }

  /* ----------------- elements ----------------- */

  /** `write_indent`: two spaces per level. */
  method WriteIndent(tw: TokenWriter, level: nat) returns (r: Outcome)
    modifies tw.out
    ensures Wrote(tw.out.capacity, old(tw.out.text), tw.out.text, Indent(level), r)
  {
    r := WriteNTimes(tw.out, ' ', level * 2);
  }

  /** A text that ends a prefix of `full` early is a prefix of `full` too. */
  lemma PrefixThen(a: string, b: string, full: string)
    requires a + b <= full
    ensures a <= full
  {
    assert a == (a + b)[..|a|];
  }

  /** A prefix of a prefix of `c` is a prefix of `c`. */
  lemma PrefixTrans(a: string, b: string, c: string)
    requires a <= b && b <= c
    ensures a <= c
  {
    assert forall k | 0 <= k < |a| :: a[k] == b[k] == c[k];
  }

  /** Each text the header's writes have produced so far is a prefix of the header. */
  lemma HeaderPrefixes(e: StructureElement)
    requires HasOneBasedLines(e.sourcerange)
    ensures var k, n, g, d := KindName(e.kind) + " ", Quoted(e.name) + " ", RangeText(e.sourcerange), Quoted(e.typeDesc) + " ";
      && k <= HeaderText(e)
      && k + "{ " <= HeaderText(e)
      && k + "{ " + n <= HeaderText(e)
      && k + "{ " + n + g <= HeaderText(e)
      && k + "{ " + n + g + " {}" <= HeaderText(e)
      && k + "{ " + n + g + " {}" + " " <= HeaderText(e)
      && k + "{ " + n + g + " {}" + " " + d <= HeaderText(e)
  {
    var k, n, g, d := KindName(e.kind) + " ", Quoted(e.name) + " ", RangeText(e.sourcerange), Quoted(e.typeDesc) + " ";
    var full := HeaderText(e);
    PrefixThen(k + "{ " + n + g + " {}" + " " + d, "{}", full);
    PrefixThen(k + "{ " + n + g + " {}" + " ", d, full);
    PrefixThen(k + "{ " + n + g + " {}", " ", full);
    PrefixThen(k + "{ " + n + g, " {}", full);
    PrefixThen(k + "{ " + n, g, full);
    PrefixThen(k + "{ ", n, full);
    PrefixThen(k, "{ ", full);
  }

  /** The part of `write_structure_element` before the children. */
  method WriteHeader(tw: TokenWriter, e: StructureElement) returns (r: Outcome)
    requires HasOneBasedLines(e.sourcerange)
    modifies tw.out
    ensures Wrote(tw.out.capacity, old(tw.out.text), tw.out.text, HeaderText(e), r)
  {
    ghost var before, cap := tw.out.text, tw.out.capacity;
    ghost var full := HeaderText(e);
    ghost var k, n, g, d := KindName(e.kind) + " ", Quoted(e.name) + " ", RangeText(e.sourcerange), Quoted(e.typeDesc) + " ";
    HeaderPrefixes(e);
    LetterWordIsRawToken(KindName(e.kind));
    r := tw.WriteRawToken(KindName(e.kind));
    if r.Fail? { WroteCut(cap, before, tw.out.text, k, full); return; }
    ghost var mid := tw.out.text;
    r := tw.WriteRaw("{ ");
    WroteThen(cap, before, mid, k, tw.out.text, "{ ", r);
    if r.Fail? { WroteCut(cap, before, tw.out.text, k + "{ ", full); return; }
    mid := tw.out.text;
    r := tw.WriteStringToken(e.name);
    WroteThen(cap, before, mid, k + "{ ", tw.out.text, n, r);
    if r.Fail? { WroteCut(cap, before, tw.out.text, k + "{ " + n, full); return; }
    mid := tw.out.text;
    r := OutputSourceRange(e.sourcerange, tw);
    WroteThen(cap, before, mid, k + "{ " + n, tw.out.text, g, r);
    if r.Fail? { WroteCut(cap, before, tw.out.text, k + "{ " + n + g, full); return; }
    mid := tw.out.text;
    r := tw.out.WriteStr(" {}");
    WroteThen(cap, before, mid, k + "{ " + n + g, tw.out.text, " {}", r);
    if r.Fail? { WroteCut(cap, before, tw.out.text, k + "{ " + n + g + " {}", full); return; }
    mid := tw.out.text;
    r := tw.out.WriteStr(" ");
    WroteThen(cap, before, mid, k + "{ " + n + g + " {}", tw.out.text, " ", r);
    if r.Fail? { WroteCut(cap, before, tw.out.text, k + "{ " + n + g + " {}" + " ", full); return; }
    mid := tw.out.text;
    r := tw.WriteStringToken(e.typeDesc);
    WroteThen(cap, before, mid, k + "{ " + n + g + " {}" + " ", tw.out.text, d, r);
    if r.Fail? { WroteCut(cap, before, tw.out.text, k + "{ " + n + g + " {}" + " " + d, full); return; }
    mid := tw.out.text;
    r := tw.out.WriteStr("{}");
    WroteThen(cap, before, mid, k + "{ " + n + g + " {}" + " " + d, tw.out.text, "{}", r);
  }

  /** The text of the first `i` children is a prefix of the text of them all. */
  lemma {:induction false} ChildrenTextPrefix(children: seq<StructureElement>, i: nat, level: nat)
    requires ElementsPrintable(children) && i <= |children|
    ensures ElementsPrintable(children[..i])
    ensures ChildrenText(children[..i], level) <= ChildrenText(children, level)
    decreases |children| - i
  {
    if i < |children| {
      var init := children[..|children| - 1];
      assert init[..i] == children[..i];
      ChildrenTextPrefix(init, i, level);
    } else {
      assert children[..i] == children;
    }
  }

  /** One more child: its line follows the lines of the children before it. */
  lemma ChildrenTextStep(children: seq<StructureElement>, i: nat, level: nat)
    requires ElementsPrintable(children) && i < |children|
    ensures ElementsPrintable(children[..i + 1]) && ElementPrintable(children[i])
    ensures ChildrenText(children[..i + 1], level)
         == ChildrenText(children[..i], level) + ("\n" + Indent(level) + ElementText(children[i], level))
  {
    var done := ChildrenText(children[..i], level);
    PrefixOfPrefix(children, i);
    JoinRegroup(done, "\n" + Indent(level), ElementText(children[i], level));
    JoinRegroup(done, "\n", Indent(level));
  }

  /** The body of the loop over the children: a child on its own line, indented. */
  method WriteChild(tw: TokenWriter, child: StructureElement, level: nat) returns (r: Outcome)
    requires ElementPrintable(child)
    modifies tw.out
    ensures Wrote(tw.out.capacity, old(tw.out.text), tw.out.text, "\n" + Indent(level) + ElementText(child, level), r)
    decreases child, 2
  {
    ghost var before, cap := tw.out.text, tw.out.capacity;
    ghost var full := "\n" + Indent(level) + ElementText(child, level);
    PrefixThen("\n" + Indent(level), ElementText(child, level), full);
    PrefixThen("\n", Indent(level), full);
    r := tw.out.WriteStr("\n");
    if r.Fail? { WroteCut(cap, before, tw.out.text, "\n", full); return; }
    ghost var mid := tw.out.text;
    r := WriteIndent(tw, level);
    WroteThen(cap, before, mid, "\n", tw.out.text, Indent(level), r);
    if r.Fail? { WroteCut(cap, before, tw.out.text, "\n" + Indent(level), full); return; }
    mid := tw.out.text;
    r := WriteStructureElement(tw, child, level);
    WroteThen(cap, before, mid, "\n" + Indent(level), tw.out.text, ElementText(child, level), r);
  }

  /** What one pass of the loop over the children adds to the output. */
  lemma ChildrenWroteStep(cap: nat, before: string, mid: string, after: string,
                          children: seq<StructureElement>, i: nat, level: nat, r: Outcome)
    requires ElementsPrintable(children) && i < |children| && ElementsPrintable(children[..i])
    requires Wrote(cap, before, mid, ChildrenText(children[..i], level), Pass)
    requires Wrote(cap, mid, after, "\n" + Indent(level) + ElementText(children[i], level), r)
    ensures ElementsPrintable(children[..i + 1])
    ensures Wrote(cap, before, after, ChildrenText(children[..i + 1], level), r)
    ensures r.Fail? ==> Wrote(cap, before, after, ChildrenText(children, level), r)
  {
    ChildrenTextStep(children, i, level);
    ChildrenTextPrefix(children, i + 1, level);
    WroteNext(cap, before, mid, after, ChildrenText(children[..i], level), "\n" + Indent(level) + ElementText(children[i], level),
              ChildrenText(children[..i + 1], level), ChildrenText(children, level), r);
  }

  /** The loop over the children in `write_structure_element`. */
  method WriteChildren(tw: TokenWriter, children: seq<StructureElement>, level: nat) returns (r: Outcome)
    requires ElementsPrintable(children)
    modifies tw.out
    ensures Wrote(tw.out.capacity, old(tw.out.text), tw.out.text, ChildrenText(children, level), r)
    decreases children, 0
  {
    ghost var before, cap := tw.out.text, tw.out.capacity;
    for i := 0 to |children|
      invariant ElementsPrintable(children[..i])
      invariant Wrote(cap, before, tw.out.text, ChildrenText(children[..i], level), Pass)
    {
      ghost var mid := tw.out.text;
      r := WriteChild(tw, children[i], level);
      ChildrenWroteStep(cap, before, mid, tw.out.text, children, i, level, r);
      if r.Fail? { return; }
    }
    PrefixEnds(children);
    r := Pass;
  }

  /** `write_structure_element`: the element at depth `level`, its children one level deeper. */
  method WriteStructureElement(tw: TokenWriter, e: StructureElement, level: nat) returns (r: Outcome)
    requires ElementPrintable(e)
    modifies tw.out
    ensures Wrote(tw.out.capacity, old(tw.out.text), tw.out.text, ElementText(e, level), r)
    decreases e, 1
  {
    ghost var before, cap := tw.out.text, tw.out.capacity;
    ghost var full := ElementText(e, level);
    ghost var header := HeaderText(e);
    r := WriteHeader(tw, e);
    if r.Fail? { WroteCut(cap, before, tw.out.text, header, full); return; }
    ghost var mid := tw.out.text;
    if e.children == [] {
      r := tw.out.WriteStr(" ");
      WroteThen(cap, before, mid, header, tw.out.text, " ", r);
      if r.Fail? { WroteCut(cap, before, tw.out.text, header + " ", full); return; }
      mid := tw.out.text;
      r := tw.out.WriteStr("}");
      WroteThen(cap, before, mid, header + " ", tw.out.text, "}", r);
    } else {
      var inner := level + 1;
      ghost var body := ChildrenText(e.children, inner);
      JoinRegroup(header, body + "\n", Indent(level));
      JoinRegroup(header, body, "\n");
      assert full == header + body + "\n" + Indent(level) + "}";
      PrefixThen(header + body + "\n" + Indent(level), "}", full);
      PrefixThen(header + body + "\n", Indent(level), full);
      PrefixThen(header + body, "\n", full);
      PrefixThen(header, body, full);
      r := WriteChildren(tw, e.children, inner);
      WroteThen(cap, before, mid, header, tw.out.text, body, r);
      if r.Fail? { WroteCut(cap, before, tw.out.text, header + body, full); return; }
      mid := tw.out.text;
      r := tw.out.WriteStr("\n");
      WroteThen(cap, before, mid, header + body, tw.out.text, "\n", r);
      if r.Fail? { WroteCut(cap, before, tw.out.text, header + body + "\n", full); return; }
      mid := tw.out.text;
      r := WriteIndent(tw, inner - 1);
      WroteThen(cap, before, mid, header + body + "\n", tw.out.text, Indent(level), r);
      if r.Fail? { WroteCut(cap, before, tw.out.text, header + body + "\n" + Indent(level), full); return; }
      mid := tw.out.text;
      r := tw.out.WriteStr("}");
      WroteThen(cap, before, mid, header + body + "\n" + Indent(level), tw.out.text, "}", r);
    }
  }

  /* ----------------- the whole output ----------------- */

  /** The text of the first `i` messages is a prefix of the text of them all. */
  lemma {:induction false} MessagesTextPrefix(ms: seq<SourceMessage>, i: nat)
    requires MessagesPrintable(ms) && i <= |ms|
    ensures MessagesPrintable(ms[..i])
    ensures MessagesText(ms[..i]) <= MessagesText(ms)
    decreases |ms| - i
  {
    if i < |ms| {
      var init := ms[..|ms| - 1];
      assert init[..i] == ms[..i];
      MessagesTextPrefix(init, i);
      PrefixTrans(MessagesText(ms[..i]), MessagesText(init), MessagesText(ms));
    } else {
      assert ms[..i] == ms;
    }
  }

  /** One more message: its text follows the text of the messages before it. */
  lemma MessagesTextStep(ms: seq<SourceMessage>, i: nat)
    requires MessagesPrintable(ms) && i < |ms| && MessagesPrintable(ms[..i])
    ensures MessagesPrintable(ms[..i + 1])
    ensures MessagesText(ms[..i + 1]) == MessagesText(ms[..i]) + MessageText(ms[i])
  {
    PrefixOfPrefix(ms, i);
  }

  /** What one pass of the loop over the messages adds to the output. */
  lemma MessagesWroteStep(cap: nat, before: string, mid: string, after: string,
                          ms: seq<SourceMessage>, i: nat, r: Outcome)
    requires MessagesPrintable(ms) && i < |ms| && MessagesPrintable(ms[..i])
    requires Wrote(cap, before, mid, MessagesText(ms[..i]), Pass)
    requires Wrote(cap, mid, after, MessageText(ms[i]), r)
    ensures MessagesPrintable(ms[..i + 1])
    ensures Wrote(cap, before, after, MessagesText(ms[..i + 1]), r)
    ensures r.Fail? ==> Wrote(cap, before, after, MessagesText(ms), r)
  {
    MessagesTextStep(ms, i);
    MessagesTextPrefix(ms, i + 1);
    WroteNext(cap, before, mid, after, MessagesText(ms[..i]), MessageText(ms[i]), MessagesText(ms[..i + 1]), MessagesText(ms), r);
  }

  /** The loop over the messages in `write_parse_analysis_contents`. */
  method WriteMessages(tw: TokenWriter, ms: seq<SourceMessage>) returns (r: Outcome)
    requires MessagesPrintable(ms)
    modifies tw.out
    ensures Wrote(tw.out.capacity, old(tw.out.text), tw.out.text, MessagesText(ms), r)
  {
    ghost var before, cap := tw.out.text, tw.out.capacity;
    PrefixEnds(ms);
    for i := 0 to |ms|
      invariant MessagesPrintable(ms[..i])
      invariant Wrote(cap, before, tw.out.text, MessagesText(ms[..i]), Pass)
    {
      ghost var mid := tw.out.text;
      r := OutputMessage(tw, ms[i]);
      MessagesWroteStep(cap, before, mid, tw.out.text, ms, i, r);
      if r.Fail? { return; }
    }
    r := Pass;
  }

  /** The text of the first `j` elements is a prefix of the text of them all. */
  lemma {:induction false} ElementsTextPrefix(es: seq<StructureElement>, j: nat)
    requires ElementsPrintable(es) && j <= |es|
    ensures ElementsPrintable(es[..j])
    ensures ElementsText(es[..j]) <= ElementsText(es)
    decreases |es| - j
  {
    if j < |es| {
      var init := es[..|es| - 1];
      assert init[..j] == es[..j];
      ElementsTextPrefix(init, j);
      PrefixTrans(ElementsText(es[..j]), ElementsText(init), ElementsText(es));
    } else {
      assert es[..j] == es;
    }
  }

  /** One more top-level element: its text follows the text of the elements before it. */
  lemma ElementsTextStep(es: seq<StructureElement>, j: nat)
    requires ElementsPrintable(es) && j < |es| && ElementsPrintable(es[..j])
    ensures ElementsPrintable(es[..j + 1]) && ElementPrintable(es[j])
    ensures ElementsText(es[..j + 1]) == ElementsText(es[..j]) + ElementText(es[j], 0)
  {
    PrefixOfPrefix(es, j);
  }

  /** What one pass of the loop over the top-level elements adds to the output. */
  lemma ElementsWroteStep(cap: nat, before: string, mid: string, after: string,
                          es: seq<StructureElement>, j: nat, r: Outcome)
    requires ElementsPrintable(es) && j < |es| && ElementsPrintable(es[..j])
    requires Wrote(cap, before, mid, ElementsText(es[..j]), Pass)
    requires Wrote(cap, mid, after, ElementText(es[j], 0), r)
    ensures ElementsPrintable(es[..j + 1])
    ensures Wrote(cap, before, after, ElementsText(es[..j + 1]), r)
    ensures r.Fail? ==> Wrote(cap, before, after, ElementsText(es), r)
  {
    ElementsTextStep(es, j);
    ElementsTextPrefix(es, j + 1);
    WroteNext(cap, before, mid, after, ElementsText(es[..j]), ElementText(es[j], 0), ElementsText(es[..j + 1]), ElementsText(es), r);
  }

  /** The loop over the top-level elements in `write_parse_analysis_contents`. */
  method WriteElements(tw: TokenWriter, es: seq<StructureElement>) returns (r: Outcome)
    requires ElementsPrintable(es)
    modifies tw.out
    ensures Wrote(tw.out.capacity, old(tw.out.text), tw.out.text, ElementsText(es), r)
  {
    ghost var before, cap := tw.out.text, tw.out.capacity;
    PrefixEnds(es);
    for j := 0 to |es|
      invariant ElementsPrintable(es[..j])
      invariant Wrote(cap, before, tw.out.text, ElementsText(es[..j]), Pass)
    {
      ghost var mid := tw.out.text;
      r := WriteStructureElement(tw, es[j], 0);
      ElementsWroteStep(cap, before, mid, tw.out.text, es, j, r);
      if r.Fail? { return; }
    }
    r := Pass;
  }

  /** `write_parse_analysis_contents`: the messages block, then the top-level elements. */
  method WriteParseAnalysisContents(ms: seq<SourceMessage>, es: seq<StructureElement>, tw: TokenWriter) returns (r: Outcome)
    requires MessagesPrintable(ms) && ElementsPrintable(es)
    modifies tw.out
    ensures Wrote(tw.out.capacity, old(tw.out.text), tw.out.text, ContentsText(ms, es), r)
  {
    ghost var before, cap := tw.out.text, tw.out.capacity;
    ghost var full := ContentsText(ms, es);
    ghost var opening, mt := "MESSAGES {\n", MessagesText(ms);
    PrefixThen(opening + mt + "}\n", ElementsText(es), full);
    PrefixThen(opening + mt, "}\n", full);
    PrefixThen(opening, mt, full);
    r := tw.WriteRaw("MESSAGES {\n");
    if r.Fail? { WroteCut(cap, before, tw.out.text, opening, full); return; }
    ghost var mid := tw.out.text;
    r := WriteMessages(tw, ms);
    WroteNext(cap, before, mid, tw.out.text, opening, mt, opening + mt, full, r);
    if r.Fail? { return; }
    mid := tw.out.text;
    r := tw.WriteRaw("}\n");
    WroteNext(cap, before, mid, tw.out.text, opening + mt, "}\n", opening + mt + "}\n", full, r);
    if r.Fail? { return; }
    mid := tw.out.text;
    r := WriteElements(tw, es);
    WroteThen(cap, before, mid, opening + mt + "}\n", tw.out.text, ElementsText(es), r);
  }

  /**
   * `write_parse_analysis_do`: the whole output, through a token writer on
   * `out`. With room for all of it, the sink ends with exactly that text.
   */
  method WriteParseAnalysisDo(ms: seq<SourceMessage>, es: seq<StructureElement>, out: CharSink) returns (r: Outcome)
    requires MessagesPrintable(ms) && ElementsPrintable(es)
    modifies out
    ensures Wrote(out.capacity, old(out.text), out.text, AnalysisText(ms, es), r)
    ensures |AnalysisText(ms, es)| <= old(out.Room()) ==> r == Pass && out.text == old(out.text) + AnalysisText(ms, es)
  {
    ghost var before, cap := out.text, out.capacity;
    ghost var full := AnalysisText(ms, es);
    ghost var opening := "RUST_PARSE_DESCRIBE 1.0 {\n";
    PrefixThen(opening + ContentsText(ms, es), "\n}", full);
    PrefixThen(opening, ContentsText(ms, es), full);
    var tw := new TokenWriter(out);
    r := tw.WriteRaw("RUST_PARSE_DESCRIBE 1.0 {\n");
    if r.Fail? { WroteCut(cap, before, out.text, opening, full); return; }
    ghost var mid := out.text;
    r := WriteParseAnalysisContents(ms, es, tw);
    WroteNext(cap, before, mid, out.text, opening, ContentsText(ms, es), opening + ContentsText(ms, es), full, r);
    if r.Fail? { return; }
    mid := out.text;
    r := tw.WriteRaw("\n}");
    WroteThen(cap, before, mid, opening + ContentsText(ms, es), out.text, "\n}", r);
  }

  /**
   * What a complete write leaves after the old text is the whole output, and
   * it reads back as exactly the messages and the elements written.
   */
  lemma WrittenAnalysisReadBack(cap: nat, before: string, after: string,
                                ms: seq<SourceMessage>, es: seq<StructureElement>)
    requires MessagesPrintable(ms) && ElementsPrintable(es)
    requires Wrote(cap, before, after, AnalysisText(ms, es), Pass)
    ensures after[|before|..] == AnalysisText(ms, es)
    ensures ReadAnalysis(after[|before|..]) == Some((ms, es))
  {
    assert after == before + AnalysisText(ms, es);
    AnalysisRoundTrip(ms, es);
  }
}
