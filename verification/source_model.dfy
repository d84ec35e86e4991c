/**
 * The value types of the outline and of the diagnostics: positions, ranges,
 * severities, messages, element kinds and elements (src/source_model.rs).
 */
module SourceModel {
  import opened Wrappers

  /** A position as the code map reports it: the line is 1-based, the column 0-based. */
  datatype LineColumnPosition = LineColumnPosition(line: nat, col: nat)

  datatype SourceRange = SourceRange(startPos: LineColumnPosition, endPos: LineColumnPosition)

  /** A code-map location (`Loc`), reduced to the two fields a range keeps. */
  datatype Loc = Loc(line: nat, col: nat)

  /** `SourceRange::fromLoc`: a range whose ends are the two locations' line and column. */
  function FromLoc(startLoc: Loc, endLoc: Loc): (r: SourceRange)
    ensures r.startPos.line == startLoc.line && r.startPos.col == startLoc.col
    ensures r.endPos.line == endLoc.line && r.endPos.col == endLoc.col
  {
    SourceRange(LineColumnPosition(startLoc.line, startLoc.col), LineColumnPosition(endLoc.line, endLoc.col))
  }

  /** `sourceRange(start_line, start_col, end_line, end_col)`. */
  function MakeSourceRange(startLine: nat, startCol: nat, endLine: nat, endCol: nat): (r: SourceRange)
    ensures r.startPos == LineColumnPosition(startLine, startCol)
    ensures r.endPos == LineColumnPosition(endLine, endCol)
  {
    SourceRange(LineColumnPosition(startLine, startCol), LineColumnPosition(endLine, endCol))
  }

  /** Lines are 1-based, so a range can be printed (its lines lowered by one) only if both lines are at least 1. */
  predicate HasOneBasedLines(sr: SourceRange)
  {
    sr.startPos.line >= 1 && sr.endPos.line >= 1
  }

  predicate IsAsciiLetter(c: char)
  {
    ('A' <= c <= 'Z') || ('a' <= c <= 'z')
  }

  predicate IsLetterWord(s: string)
  {
    |s| > 0 && forall i :: 0 <= i < |s| ==> IsAsciiLetter(s[i])
  }

  /* ----------------- Severity ----------------- */

  datatype Severity = INFO | WARNING | ERROR

  /** `Severity::to_string`: the severity's own name, a non-empty word of letters. */
  function SeverityName(sev: Severity): (r: string)
    ensures IsLetterWord(r)
  {
    match sev
    case ERROR => "ERROR"
    case WARNING => "WARNING"
    case INFO => "INFO"
  }

  /** Reading a severity name back, as a consumer of the output does. */
  function SeverityFromName(s: string): Option<Severity>
  {
    if s == "ERROR" then Some(ERROR)
    else if s == "WARNING" then Some(WARNING)
    else if s == "INFO" then Some(INFO)
    else None
  }

  lemma SeverityNameRoundTrip(sev: Severity)
    ensures SeverityFromName(SeverityName(sev)) == Some(sev)
  {
  }

  datatype SourceMessage = SourceMessage(severity: Severity, sourcerange: Option<SourceRange>, message: string)

  /* ----------------- Model ----------------- */

  datatype StructureElementKind =
    | Var | Function | Struct | Impl | Trait | Enum | EnumVariant | ExternCrate | Mod | Use | TypeAlias

  /** `StructureElementKind::to_String`: the kind's own name, a non-empty word of letters. */
  function KindName(kind: StructureElementKind): (r: string)
    ensures IsLetterWord(r)
  {
    match kind
    case Var => "Var"
    case Function => "Function"
    case Struct => "Struct"
    case Impl => "Impl"
    case Trait => "Trait"
    case Enum => "Enum"
    case EnumVariant => "EnumVariant"
    case ExternCrate => "ExternCrate"
    case Mod => "Mod"
    case Use => "Use"
    case TypeAlias => "TypeAlias"
  }

  /** Reading a kind name back, as a consumer of the output does. */
  function KindFromName(s: string): Option<StructureElementKind>
  {
    if s == "Var" then Some(Var)
    else if s == "Function" then Some(Function)
    else if s == "Struct" then Some(Struct)
    else if s == "Impl" then Some(Impl)
    else if s == "Trait" then Some(Trait)
    else if s == "Enum" then Some(Enum)
    else if s == "EnumVariant" then Some(EnumVariant)
    else if s == "ExternCrate" then Some(ExternCrate)
    else if s == "Mod" then Some(Mod)
    else if s == "Use" then Some(Use)
    else if s == "TypeAlias" then Some(TypeAlias)
    else None
  }

  lemma KindNameRoundTrip(kind: StructureElementKind)
    ensures KindFromName(KindName(kind)) == Some(kind)
  {
  }

  /** Distinct kinds print as distinct names. */
  lemma KindNameInjective(a: StructureElementKind, b: StructureElementKind)
    ensures KindName(a) == KindName(b) ==> a == b
  {
    KindNameRoundTrip(a);
    KindNameRoundTrip(b);
  }

  /** A node of the outline; a parent owns its children, kept in visiting order. */
  datatype StructureElement = StructureElement(
    name: string,
    kind: StructureElementKind,
    sourcerange: SourceRange,
    typeDesc: string,
    children: seq<StructureElement>)
}
