/**
 * The parse driver of src/parse_describe.rs: the file loader handed to the
 * code map, the emitter that turns parser diagnostics into messages, and the
 * worker that runs the parser and the structure visitor.
 *
 * The parser is not part of this model: it is represented by what it hands
 * over, the diagnostics it emits (with their primary spans already resolved
 * to ranges) and the crate's items when the parse succeeds.
 */
module ParseDescribe {
  import opened Wrappers
  import opened SourceModel
  import opened Syntax
  import opened Outline
  import opened StructureVisiting
  import opened SeqUtil

  /* ----------------- DummyFileLoader ----------------- */

  /** A component of a path, as `Path::components` yields them. */
  datatype PathComponent = RootDir | CurDir | ParentDir | Normal(name: string)

  /** `Path::file_name`: the last component, when it is a name. */
  function FileName(path: seq<PathComponent>): (r: Option<string>)
    ensures r.Some? <==> path != [] && path[|path| - 1].Normal?
  {
    if path != [] && path[|path| - 1].Normal? then Some(path[|path| - 1].name) else None
  }

  /** `DummyFileLoader::file_exists`: only files called `mod.rs` exist. */
  function FileExists(path: seq<PathComponent>): (r: bool)
    ensures r <==> path != [] && path[|path| - 1] == Normal("mod.rs")
  {
    FileName(path) == Some("mod.rs")
  }

  /** `DummyFileLoader::read_file`: every file reads as empty. */
  function ReadFile(path: seq<PathComponent>): (r: string)
    ensures r == []
  {
    ""
  }

  /**
   * The loader lets an out-of-line `mod m;` resolve only through `m/mod.rs`,
   * and what it loads is an empty module.
   */
  lemma ModFileLoadsEmpty(dir: seq<PathComponent>, name: string)
    ensures FileExists(dir + [Normal("mod.rs")]) && ReadFile(dir + [Normal("mod.rs")]) == ""
    ensures name != "mod.rs" ==> !FileExists(dir + [Normal(name)])
  {
  }

  /* ----------------- levels ----------------- */

  /** `syntex_errors::Level`. */
  datatype Level = PhaseFatal | Bug | Cancelled | Help | Note | Warning | Error | Fatal

  /**
   * `level_to_status_level`; `None` stands for the panic it raises on the
   * three levels a parser never reports to a user.
   */
  function LevelToSeverity(lvl: Level): (r: Option<Severity>)
    ensures r.None? <==> lvl == PhaseFatal || lvl == Bug || lvl == Cancelled
    ensures r == Some(INFO) <==> lvl == Help || lvl == Note
    ensures r == Some(WARNING) <==> lvl == Warning
    ensures r == Some(ERROR) <==> lvl == Error || lvl == Fatal
  {
    match lvl
    case PhaseFatal => None
    case Bug => None
    case Cancelled => None
    case Help => Some(INFO)
    case Note => Some(INFO)
    case Warning => Some(WARNING)
    case Error => Some(ERROR)
    case Fatal => Some(ERROR)
  }

  /** Every severity is reported for some level. */
  lemma EverySeverityReported(sev: Severity)
    ensures exists lvl :: LevelToSeverity(lvl) == Some(sev)
  {
    match sev
    case INFO => assert LevelToSeverity(Note) == Some(INFO);
    case WARNING => assert LevelToSeverity(Warning) == Some(WARNING);
    case ERROR => assert LevelToSeverity(Error) == Some(ERROR);
  }

  /* ----------------- the emitter ----------------- */

  /** A diagnostic as the parser hands it to the emitter. */
  datatype Diagnostic = Diagnostic(message: string, code: Option<string>, level: Level, primarySpans: seq<SourceRange>)

  /** One message per span, in span order, each with the same text and severity. */
  function SpanMessages(spans: seq<SourceRange>, sev: Severity, text: string): (r: seq<SourceMessage>)
    ensures |r| == |spans|
    ensures forall i :: 0 <= i < |spans| ==> r[i] == SourceMessage(sev, Some(spans[i]), text)
  {
    if spans == [] then [] else SpanMessages(spans[..|spans| - 1], sev, text) + [SourceMessage(sev, Some(spans[|spans| - 1]), text)]
  }

  /**
   * What `emit` appends for a diagnostic; `None` when it panics: on a
   * diagnostic with a code, and on a level with no severity once there is a
   * span to report.
   */
  function EmitMessages(d: Diagnostic): (r: Option<seq<SourceMessage>>)
    ensures r.None? <==> d.code.Some? || (d.primarySpans != [] && LevelToSeverity(d.level).None?)
    ensures r.Some? ==> |r.value| == |d.primarySpans|
    ensures r.Some? ==> forall i :: 0 <= i < |d.primarySpans| ==>
      r.value[i] == SourceMessage(LevelToSeverity(d.level).value, Some(d.primarySpans[i]), d.message)
  {
    if d.code.Some? then None
    else if d.primarySpans == [] then Some([])
    else match LevelToSeverity(d.level)
      case None => None
      case Some(sev) => Some(SpanMessages(d.primarySpans, sev, d.message))
  }

  /** `MessagesHandler`: the emitter installed in the parse session. */
  class MessagesHandler {
    var messages: seq<SourceMessage>

    constructor ()
      ensures messages == []
    {
      messages := [];
    }

    /** `write_message_handled`. */
    method WriteMessageHandled(sourcerange: Option<SourceRange>, msg: string, severity: Severity)
      modifies this
      ensures messages == old(messages) + [SourceMessage(severity, sourcerange, msg)]
    {
      messages := messages + [SourceMessage(severity, sourcerange, msg)];
    }

    /**
     * `emit`: one message per primary span. Returns whether it panicked; a
     * panic happens before any message of the diagnostic is added.
     */
    method Emit(d: Diagnostic) returns (panicked: bool)
      modifies this
      ensures panicked <==> EmitMessages(d).None?
      ensures panicked ==> messages == old(messages)
      ensures !panicked ==> messages == old(messages) + EmitMessages(d).value
    {
      if d.code.Some? {
        return true;
      }
      var spans := d.primarySpans;
      for i := 0 to |spans|
        invariant i == 0 ==> messages == old(messages)
        invariant i > 0 ==> LevelToSeverity(d.level).Some?
        invariant i > 0 ==> messages == old(messages) + SpanMessages(spans[..i], LevelToSeverity(d.level).value, d.message)
      {
        var severity := LevelToSeverity(d.level);
        if severity.None? {
          return true;
        }
        WriteMessageHandled(Some(spans[i]), d.message, severity.value);
        assert spans[..i + 1][..i] == spans[..i];
      }
      assert spans[..|spans|] == spans;
      panicked := false;
    }
  }

  /* ----------------- the parse worker ----------------- */

  /**
   * The messages of a run of diagnostics, up to the first that panics, and
   * whether one did: the run panics exactly when one of its diagnostics does.
   */
  function EmitAll(diags: seq<Diagnostic>): (r: (seq<SourceMessage>, bool))
    ensures r.1 <==> exists j :: 0 <= j < |diags| && EmitMessages(diags[j]).None?
  {
    if diags == [] then ([], false)
    else match EmitMessages(diags[0])
      case None => ([], true)
      case Some(ms) =>
        var rest := EmitAll(diags[1..]);
        assert forall j :: 1 <= j < |diags| ==> diags[j] == diags[1..][j - 1];
        (ms + rest.0, rest.1)
  }

  /** A run that starts with a diagnostic that does not panic. */
  lemma EmitAllCons(d: Diagnostic, rest: seq<Diagnostic>)
    requires EmitMessages(d).Some?
    ensures EmitAll([d] + rest) == (EmitMessages(d).value + EmitAll(rest).0, EmitAll(rest).1)
  {
    assert ([d] + rest)[0] == d;
    assert ([d] + rest)[1..] == rest;
  }

  /** When no diagnostic panics, the messages are each diagnostic's messages in turn. */
  lemma {:induction false} EmitAllAppend(diags: seq<Diagnostic>, d: Diagnostic)
    requires !EmitAll(diags).1 && EmitMessages(d).Some?
    ensures EmitAll(diags + [d]) == (EmitAll(diags).0 + EmitMessages(d).value, false)
    decreases |diags|
  {
    var v := EmitMessages(d).value;
    if diags == [] {
      assert diags + [d] == [d] + [];
      EmitAllCons(d, []);
      assert v + [] == v && [] + v == v;
    } else {
      var d0, tail := diags[0], diags[1..];
      assert diags == [d0] + tail;
      JoinRegroup([d0], tail, [d]);
      var ms := EmitMessages(d0).value;
      EmitAllCons(d0, tail);
      EmitAllCons(d0, tail + [d]);
      EmitAllAppend(tail, d);
      JoinRegroup(ms, EmitAll(tail).0, v);
    }
  }

  /**
   * `parse_crate_with_messages_do` and its visitor: the outline of the parsed
   * crate, nothing when the parse failed.
   */
  method CrateElements(krate: Option<seq<Item>>) returns (elements: seq<StructureElement>)
    ensures krate.None? ==> elements == []
    ensures krate.Some? ==> elements == ItemsElements(krate.value)
  {
    elements := [];
    if krate.Some? {
      var visitor := new StructureVisitor();
      visitor.VisitItems(krate.value);
      elements := visitor.elements;
    }
  }

  /**
   * `parse_crate_with_messages`: the parser reports `diags` and returns
   * `krate`. The messages gathered up to a panic survive it; the worker's
   * elements do not (the join falls back to no element).
   */
  method ParseCrateWithMessages(diags: seq<Diagnostic>, krate: Option<seq<Item>>)
    returns (messages: seq<SourceMessage>, elements: seq<StructureElement>)
    ensures messages == EmitAll(diags).0
    ensures EmitAll(diags).1 ==> elements == []
    ensures !EmitAll(diags).1 && krate.None? ==> elements == []
    ensures !EmitAll(diags).1 && krate.Some? ==> elements == ItemsElements(krate.value)
  {
    var handler := new MessagesHandler();
    for i := 0 to |diags|
      invariant !EmitAll(diags[..i]).1
      invariant handler.messages == EmitAll(diags[..i]).0
    {
      var panicked := handler.Emit(diags[i]);
      if panicked {
        EmitAllPanic(diags, i);
        return handler.messages, [];
      }
      EmitAllAppend(diags[..i], diags[i]);
      assert diags[..i + 1] == diags[..i] + [diags[i]];
    }
    assert diags[..|diags|] == diags;
    messages := handler.messages;
    elements := CrateElements(krate);
  }

  /** A diagnostic that panics ends the run: the messages are those gathered before it. */
  lemma {:induction false} EmitAllPanic(diags: seq<Diagnostic>, i: nat)
    requires i < |diags| && !EmitAll(diags[..i]).1 && EmitMessages(diags[i]).None?
    ensures EmitAll(diags) == (EmitAll(diags[..i]).0, true)
    decreases i
  {
    if i == 0 {
      assert diags[..0] == [];
    } else {
      assert diags[..i][1..] == diags[1..][..i - 1];
      assert diags[..i][0] == diags[0];
      EmitAllPanic(diags[1..], i - 1);
    }
  }
}
