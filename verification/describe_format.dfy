/**
 * The text the describe output consists of (src/parse_describe.rs), as
 * functions of the messages and elements written.
 */
module DescribeFormat {
  import opened Wrappers
  import opened SourceModel
  import opened TokenWriting
  import opened StringUtil

  /* ----------------- numbers ----------------- */

  predicate IsDigit(c: char)
  {
    '0' <= c <= '9'
  }

  function DigitChar(d: nat): (c: char)
    requires d < 10
    ensures IsDigit(c)
  {
    (48 + d) as char
  }

  /** A number as `Display` writes it: decimal digits, no sign, no leading zero. */
  function Decimal(n: nat): (r: string)
    ensures |r| >= 1
    ensures forall i :: 0 <= i < |r| ==> IsDigit(r[i])
    decreases n
  {
    if n < 10 then [DigitChar(n)] else Decimal(n / 10) + [DigitChar(n % 10)]
  }

  /* ----------------- ranges and messages ----------------- */

  /** The two positions of a range, lines lowered by one, each followed by a space. */
  function PositionsText(sr: SourceRange): string
    requires HasOneBasedLines(sr)
  {
    Decimal(sr.startPos.line - 1) + ":" + Decimal(sr.startPos.col) + " "
      + Decimal(sr.endPos.line - 1) + ":" + Decimal(sr.endPos.col) + " "
  }

  /** `output_SourceRange`. */
  function RangeText(sr: SourceRange): string
    requires HasOneBasedLines(sr)
  {
    "{ " + PositionsText(sr) + "}"
  }

  predicate OptRangePrintable(sr: Option<SourceRange>)
  {
    sr.Some? ==> HasOneBasedLines(sr.value)
  }

  /** `output_opt_SourceRange`: an empty pair of braces stands for a missing range. */
  function OptRangeText(sr: Option<SourceRange>): string
    requires OptRangePrintable(sr)
  {
    (match sr case None => "{ }" case Some(r) => RangeText(r)) + " "
  }

  /** `output_Level`: the severity's name as a bare token. */
  function LevelText(sev: Severity): string
  {
    SeverityName(sev) + " "
  }

  predicate MessagePrintable(m: SourceMessage)
  {
    OptRangePrintable(m.sourcerange)
  }

  /** `output_message`. */
  function MessageText(m: SourceMessage): string
    requires MessagePrintable(m)
  {
    "{ " + LevelText(m.severity) + OptRangeText(m.sourcerange) + (Quoted(m.message) + " ") + "}\n"
  }

  predicate MessagesPrintable(ms: seq<SourceMessage>)
  {
    forall i :: 0 <= i < |ms| ==> MessagePrintable(ms[i])
  }

  function MessagesText(ms: seq<SourceMessage>): string
    requires MessagesPrintable(ms)
  {
    if ms == [] then "" else MessagesText(ms[..|ms| - 1]) + MessageText(ms[|ms| - 1])
  }

  /* ----------------- elements ----------------- */

  /** `write_indent`: two spaces per level. */
  function Indent(level: nat): string
  {
    Repeat(' ', level * 2)
  }

  /** An element and all its descendants have ranges that can be printed. */
  predicate ElementPrintable(e: StructureElement)
    decreases e
  {
    HasOneBasedLines(e.sourcerange) && forall i :: 0 <= i < |e.children| ==> ElementPrintable(e.children[i])
  }

  predicate ElementsPrintable(es: seq<StructureElement>)
  {
    forall i :: 0 <= i < |es| ==> ElementPrintable(es[i])
  }

  /** Everything of an element before its children: kind, name, range, the unsupported name range, description, attributes. */
  function HeaderText(e: StructureElement): string
    requires HasOneBasedLines(e.sourcerange)
  {
    (KindName(e.kind) + " ") + "{ " + (Quoted(e.name) + " ") + RangeText(e.sourcerange)
      + " {}" + " " + (Quoted(e.typeDesc) + " ") + "{}"
  }

  /** `write_structure_element` at nesting depth `level`. */
  function ElementText(e: StructureElement, level: nat): string
    requires ElementPrintable(e)
    decreases e, 1
  {
    HeaderText(e)
      + (if e.children == [] then " " else ChildrenText(e.children, level + 1) + "\n" + Indent(level))
      + "}"
  }

  /** Each child on a line of its own, indented for depth `level`. */
  function ChildrenText(children: seq<StructureElement>, level: nat): string
    requires ElementsPrintable(children)
    decreases children, 0
  {
    if children == [] then ""
    else ChildrenText(children[..|children| - 1], level) + "\n" + Indent(level) + ElementText(children[|children| - 1], level)
  }

  /** The top-level elements, one after the other at depth 0. */
  function ElementsText(es: seq<StructureElement>): string
    requires ElementsPrintable(es)
  {
    if es == [] then "" else ElementsText(es[..|es| - 1]) + ElementText(es[|es| - 1], 0)
  }

  /* ----------------- the whole output ----------------- */

  /** `write_parse_analysis_contents`. */
  function ContentsText(ms: seq<SourceMessage>, es: seq<StructureElement>): string
    requires MessagesPrintable(ms) && ElementsPrintable(es)
  {
    "MESSAGES {\n" + MessagesText(ms) + "}\n" + ElementsText(es)
  }

  /** `write_parse_analysis_do`. */
  function AnalysisText(ms: seq<SourceMessage>, es: seq<StructureElement>): string
    requires MessagesPrintable(ms) && ElementsPrintable(es)
  {
    "RUST_PARSE_DESCRIBE 1.0 {\n" + ContentsText(ms, es) + "\n}"
  }
}
