# Rainicorn parse-describe, modelled in Dafny

Rainicorn's `parse_describe` turns a Rust source file into a textual
"parse analysis". It has two halves, and both are modelled here:

- **Structure extraction.** A visitor walks the parsed crate and builds a
  tree of `StructureElement`s, one per declaration: name, kind, source range,
  type description and children. It also rebuilds `use` paths and function
  signatures from source snippets. A separate emitter turns the parser's
  diagnostics into `SourceMessage`s.
- **Serialisation.** The messages and elements are written to a character
  sink as tokens: quoted strings with `"` and `\` escaped, bare tokens,
  ranges printed as `{ l-1:c l-1:c }`, and elements nested with two-space
  indentation. All of it sits inside a `RUST_PARSE_DESCRIBE 1.0 { … }`
  envelope.

## Layout

The model is split into modules:

- `SourceModel` holds the value types (positions, ranges, severities, element kinds, messages, elements).
- `Syntax` holds the part of the parser's syntax tree that the visitor reads. Spans are already resolved to ranges, snippets are `Option<string>`, and a path's printed form is an input.
- `Outline` describes, as functions, what each visitor entry point appends.
- `StructureVisiting` is the visitor itself: a class with the `elements` and `parentIsStruct` fields. Each method is proved to append exactly what the matching `Outline` function describes.
- `OutlineFacts` proves properties of the outline: `use` rendering, signatures, classification and the shape of every element.
- `CharOutput` is the `fmt::Write` sink.
- `StringUtil` holds `writeNTimes`.
- `TokenWriting` holds the escaping and the token writer.
- `DescribeFormat` defines, as functions, the exact text of every construct.
- `DescribeWriter` holds the writing methods. Each is proved to write exactly the text that `DescribeFormat` defines, or the part of it that fits.
- `DescribeReader` is a reader for the tokens, positions, ranges and messages of that text. It proves that the message section reads back to the messages written.
- `DescribeElementReader` reads elements, nested elements and the whole output. It proves that the complete text reads back to the messages and the elements that were written.
- `DescribeFacts` checks the formats against the literal outputs in the source's tests.
- `ParseDescribe` holds the file loader, the level table, the emitter and the parse worker.

### The sink

A `fmt::Write` sink is a `CharOutput.CharSink`. It has a fixed `capacity` and an append-only `text`.

- A write appends as much of its string as fits.
- A write fails exactly when the string does not fit whole.

A `String` sink is a sink whose capacity is never reached. The predicate `Wrote(cap, before, after, s, r)` says what writing `s` did: `after` is `before` plus the part of `s` that fits, and `r` is `Pass` exactly when all of `s` fit.

Every writer operation is specified with `Wrote` against the full text it is meant to produce. Two consequences follow:

- On a sink with room, it writes exactly that text.
- On a sink that fills up, it writes a prefix of that text and fails.

Once a write has failed, the sink accepts nothing more. So `Wrote` alone cannot tell whether a writer stops at its first failure (the `?` operator) or goes on writing in vain. For the one-character writers (`writeNTimes` and the escaped-string loop) the sink also keeps a ghost count of write calls. Their contracts then state, with `WritesUpToFailure`, that exactly one call failed and that it was the last call made.

`output_SourceRange` formats the four numbers with one `write_fmt` call. The model writes the formatted text as one string, and a sink that stops at its first failure writes the same characters either way.

## Model

| member | source | states |
|---|---|---|
| SourceModel.FromLoc | src/source_model.rs:41-46 | the range's start and end carry the two locations' lines and columns unchanged |
| SourceModel.MakeSourceRange | src/source_model.rs:50-55 | `sourceRange(a,b,c,d)` stores exactly start (a,b) and end (c,d) |
| SourceModel.SeverityName | src/source_model.rs:68-76 | every severity name is a non-empty word of ASCII letters |
| SourceModel.SeverityNameRoundTrip | src/source_model.rs:68-76 | the severity can be recovered from its name, so the three names are distinct |
| SourceModel.KindName | src/source_model.rs:102-118 | every kind name is a non-empty word of ASCII letters |
| SourceModel.KindNameRoundTrip | src/source_model.rs:102-118 | the kind can be recovered from its name |
| SourceModel.KindNameInjective | src/source_model.rs:102-118 | distinct kinds have distinct names |
| CharOutput.CharSink.WriteStr | src/token_writer.rs:42-44 | appends the part of the string that fits; fails exactly when not all of it fits; counts one call |
| CharOutput.CharSink.WriteChar | src/token_writer.rs:46-50 | appends the character if there is room; fails otherwise; counts one call |
| StringUtil.Repeat | rust_parse_describe/src/util/string.rs:41-46 | n copies of one character: length n, every position that character |
| StringUtil.WriteNTimes | rust_parse_describe/src/util/string.rs:41-46 | appends n copies of `ch`, or as many as fit and then fails; with n = 0 it appends nothing and passes; on failure, the failing call was its last write call |
| TokenWriting.WriteEscapedChar | src/token_writer.rs:100-105 | writes a character, preceded by `\` when it is `"` or `\`; a failed backslash write is its last call |
| TokenWriting.WriteEscapedString | src/token_writer.rs:92-112 | writes the quoted, escaped form of the string; on failure it makes no write call after the failing one |
| TokenWriting.EscapedAppend | src/token_writer.rs:100-106 | escaping works character by character: the escape of a concatenation is the concatenation of the escapes |
| TokenWriting.EscapedPlain | src/token_writer.rs:100-106 | a string with no `"` and no `\` is copied unchanged |
| TokenWriting.QuotedLength | src/token_writer.rs:98-109 | the output is two quotes plus one character per input character plus one per `"` or `\` |
| TokenWriting.UnescapeEscaped | src/token_writer.rs:100-106 | dropping each escaping backslash recovers the original string |
| TokenWriting.ReadQuotedRoundTrip | src/token_writer.rs:92-112 | a reader of quoted tokens gets the original string back, and the text after the token, from the written form |
| TokenWriting.QuotedExamples | src/token_writer.rs:124-127 | the empty string, `"` and `\` quote as in the tests |
| TokenWriting.QuotedPlainExample | src/token_writer.rs:125 | `abc` quotes as `"abc"`, as in the test |
| TokenWriting.QuotedInnerQuoteExample | src/token_writer.rs:126 | `-"-` quotes as `"-\"-"`, as in the test |
| TokenWriting.QuotedTrailingBackslashExample | src/token_writer.rs:130 | `---\` quotes as `"---\\"`, as in the test |
| TokenWriting.QuotedMixedExample | src/token_writer.rs:128 | `--\"-` quotes as `"--\\\"-"`, as in the test |
| TokenWriting.LetterWordIsRawToken | src/token_writer.rs:54-62 | a word of ASCII letters has no whitespace and no bracket, so it is a valid raw token |
| TokenWriting.RawTokenExamples | src/token_writer.rs:85-87 | `blah` is a valid raw token; `bl ah` and `bl{ah` are rejected, as in the test |
| TokenWriting.TokenWriter.WriteRaw | src/token_writer.rs:42-44 | writes the string through to the sink |
| TokenWriting.TokenWriter.WriteStringToken | src/token_writer.rs:46-50 | writes the quoted, escaped string followed by exactly one space |
| TokenWriting.TokenWriter.WriteRawToken | src/token_writer.rs:52-68 | a token containing whitespace or one of `{}()[]` fails and writes nothing; any other token is written followed by one space |
| DescribeFormat.Decimal | src/parse_describe.rs:313-317 | the decimal form of a number is a non-empty string of digits |
| DescribeReader.DecimalValue | src/parse_describe.rs:313-317 | a number's decimal digits read back to that number |
| DescribeReader.PositionRoundTrip | src/parse_describe.rs:313-317 | a printed `line-1:col` position reads back to the position |
| DescribeReader.RangeRoundTrip | src/parse_describe.rs:311-323 | a printed range reads back to the range, with the rest of the text untouched |
| DescribeReader.OptRangeRoundTrip | src/parse_describe.rs:325-335 | `{ } ` and a printed range plus a space read back to None and to the range |
| DescribeReader.RangeTextOpens | src/parse_describe.rs:311-335 | a printed range never begins with `{ }`, so None and Some cannot be confused |
| DescribeReader.MessageRoundTrip | src/parse_describe.rs:284-301 | a printed message reads back to the message: severity, optional range and text |
| DescribeReader.MessagesRoundTrip | src/parse_describe.rs:271-274 | the printed message list reads back to the messages, in order |
| DescribeElementReader.SkipSpace | src/parse_describe.rs:362-375 | skipping layout drops a prefix made only of whitespace and leaves the rest of the text, which starts with no whitespace |
| DescribeElementReader.HeaderRoundTrip | src/parse_describe.rs:347-360 | a printed header reads back to the element's kind, name, range and type description, with the rest untouched |
| DescribeElementReader.ElementRoundTrip | src/parse_describe.rs:343-380 | a printed element, at any depth and with all its nested children, reads back to the element |
| DescribeElementReader.ChildrenRoundTrip | src/parse_describe.rs:362-377 | printed children, then any layout and the closing `}`, read back to the children in order |
| DescribeElementReader.ElementsRoundTrip | src/parse_describe.rs:278-280 | the top-level elements, written with no separator, read back to the elements in order |
| DescribeElementReader.AnalysisRoundTrip | src/parse_describe.rs:251-282 | the whole output reads back to exactly the messages and the elements written into it |
| DescribeWriter.OutputLevel | src/parse_describe.rs:304-309 | writes the severity's name followed by one space |
| DescribeWriter.OutputSourceRange | src/parse_describe.rs:311-323 | writes `{ `, start and end as `line-1:col `, then `}`; lines must be at least 1 |
| DescribeWriter.OutputOptSourceRange | src/parse_describe.rs:325-335 | writes `{ } ` for no range, the range and one space otherwise |
| DescribeWriter.OutputMessage | src/parse_describe.rs:284-301 | writes `{ `, the severity, the optional range, the quoted text and `}` plus a newline |
| DescribeWriter.WriteIndent | src/parse_describe.rs:338-341 | writes two spaces per level |
| DescribeWriter.WriteHeader | src/parse_describe.rs:347-360 | writes kind, `{ `, quoted name, range, ` {}`, quoted type description and `{}` |
| DescribeWriter.WriteChild | src/parse_describe.rs:368-370 | writes a newline, the child's indentation and the child element |
| DescribeWriter.WriteChildren | src/parse_describe.rs:365-371 | writes every child in order, each on its own line at the next depth |
| DescribeWriter.WriteStructureElement | src/parse_describe.rs:343-380 | writes an element: a childless one on one line ending ` }`; one with children has them below it, then a line at its own depth holding `}` |
| DescribeWriter.WriteMessages | src/parse_describe.rs:271-274 | writes every message in input order |
| DescribeWriter.WriteElements | src/parse_describe.rs:278-280 | writes every top-level element in order at depth 0 |
| DescribeWriter.WriteParseAnalysisContents | src/parse_describe.rs:265-282 | writes `MESSAGES {\n`, the messages, `}\n`, then the elements |
| DescribeWriter.WriteParseAnalysisDo | src/parse_describe.rs:251-263 | writes the contents inside the `RUST_PARSE_DESCRIBE 1.0 {\n` … `\n}` envelope; on a sink with room it writes exactly that text and passes |
| DescribeWriter.WrittenAnalysisReadBack | src/parse_describe.rs:251-380 | what a successful write appended is the analysis text, and the messages and elements read back from it |
| DescribeFacts.QuotedPlain | src/token_writer.rs:92-112 | a string with nothing to escape is written between two quotes |
| DescribeFacts.RangeTextExample | src/parse_describe.rs:420-424 | range (1,0)-(2,5) prints as `{ 0:0 1:5 }`, as in the test |
| DescribeFacts.HeaderPlain | src/parse_describe.rs:347-360 | with plain name and description, the header is `KIND { "name" { range } {} "desc" {}` |
| DescribeFacts.LeafElementExample | src/parse_describe.rs:419-424 | the test's `Var` element prints as `Var { "blah" { 0:0 1:5 } {} "desc" {} }` |
| DescribeFacts.NestedElementExample | src/structure_visitor.rs:531-535 | the test's `mod myMod { static xx : u32 = 2; }` prints with the `Var` indented by two spaces |
| DescribeFacts.MessageExample | src/parse_describe.rs:432-433 | an ERROR at (1,2)-(1,6) prints as `{ ERROR { 0:2 0:6 } "text" }`, as in the test |
| DescribeFacts.EmptyAnalysisExample | src/parse_describe.rs:251-282 | with no messages and no elements the whole output is the envelope around an empty `MESSAGES` block |
| ParseDescribe.FileName | src/parse_describe.rs:114-116 | a path has a file name exactly when its last component is a name |
| ParseDescribe.FileExists | src/parse_describe.rs:114-116 | a file exists exactly when its file name is `mod.rs` |
| ParseDescribe.ReadFile | src/parse_describe.rs:126-128 | every file reads as the empty string |
| ParseDescribe.ModFileLoadsEmpty | src/parse_describe.rs:114-128 | `mod.rs` in any directory exists and reads as empty; any other file name does not exist |
| ParseDescribe.LevelToSeverity | src/parse_describe.rs:235-244 | Help and Note give INFO, Warning gives WARNING, Error and Fatal give ERROR; PhaseFatal, Bug and Cancelled panic |
| ParseDescribe.EverySeverityReported | src/parse_describe.rs:235-244 | each severity is the image of some level |
| ParseDescribe.SpanMessages | src/parse_describe.rs:223-231 | one message per span, in span order, each with the same severity and text |
| ParseDescribe.EmitMessages | src/parse_describe.rs:209-232 | a diagnostic with a code panics; otherwise k primary spans give k messages in order; a diagnostic with no span gives none |
| ParseDescribe.MessagesHandler.WriteMessageHandled | src/parse_describe.rs:192-205 | appends exactly one message with the given severity, range and text |
| ParseDescribe.MessagesHandler.Emit | src/parse_describe.rs:209-232 | appends exactly the diagnostic's messages, or nothing when it panics |
| ParseDescribe.EmitAll | src/parse_describe.rs:55-74 | emitting a run of diagnostics panics exactly when one of them panics |
| ParseDescribe.EmitAllAppend | src/parse_describe.rs:209-232 | without a panic, the messages of a run are each diagnostic's messages in turn |
| ParseDescribe.EmitAllPanic | src/parse_describe.rs:55-74 | a panicking diagnostic keeps the messages gathered before it and ends the run |
| ParseDescribe.CrateElements | src/parse_describe.rs:76-95 | a parsed crate gives the visitor's outline of its items; a failed parse gives no element |
| ParseDescribe.ParseCrateWithMessages | src/parse_describe.rs:55-74 | the messages are those emitted up to any panic; the elements are the crate's outline unless the worker panicked or the parse failed |
| StructureVisiting.GetTypeDesc | src/structure_visitor.rs:159-197 | builds the `(args) -> ret` signature that `Outline.TypeDesc` defines |
| StructureVisiting.AppendPathList | src/structure_visitor.rs:133-150 | appends every list item's text, each followed by `, ` |
| StructureVisiting.PathListItemPieces | src/structure_visitor.rs:134-149 | the pushes for one list item add its name or `self`, an optional ` as` rename and `, ` |
| StructureVisiting.StructureVisitor.WriteElementDo | src/structure_visitor.rs:42-63 | appends exactly one element after the old siblings, whose children are what the walk produced, and returns Ok |
| StructureVisiting.StructureVisitor.WriteElement | src/structure_visitor.rs:65-96 | the handled, ident-taking and description-less forms append the same one element |
| StructureVisiting.StructureVisitor.RunWalk | src/structure_visitor.rs:225-410 | a walk closure appends exactly the elements its walk describes |
| StructureVisiting.StructureVisitor.WriteItemUse | src/structure_visitor.rs:99-157 | appends one `Use` element with the rebuilt path and no description, or nothing for a path without segments |
| StructureVisiting.StructureVisitor.WriteFunctionElement | src/structure_visitor.rs:199-204 | appends one `Function` element described by its signature |
| StructureVisiting.StructureVisitor.VisitItem | src/structure_visitor.rs:225-294 | appends the item's classification: `Var` with its type for statics and consts, a function element, a `Struct` for a struct's data, nothing for macros |
| StructureVisiting.StructureVisitor.WalkItem | src/structure_visitor.rs:225-294 | the walk of an item appends its members' elements and clears the struct flag |
| StructureVisiting.StructureVisitor.VisitItems | src/structure_visitor.rs:216-223 | a module's items append their elements in order |
| StructureVisiting.StructureVisitor.VisitVariantData | src/structure_visitor.rs:306-316 | appends one `Struct` element when the flag is set, clearing it, and an `EnumVariant` otherwise |
| StructureVisiting.StructureVisitor.VisitVariants | src/structure_visitor.rs:296-304 | an enum's variants append one element each, in order |
| StructureVisiting.StructureVisitor.WalkStructDef | src/structure_visitor.rs:306-316 | a struct's fields append their elements in order |
| StructureVisiting.StructureVisitor.VisitStructField | src/structure_visitor.rs:318-324 | a named field appends a `Var`; an unnamed one appends nothing |
| StructureVisiting.StructureVisitor.VisitTraitItem | src/structure_visitor.rs:326-347 | a trait const is a `Var`, a trait type a `TypeAlias`, a method a function element |
| StructureVisiting.StructureVisitor.WalkTraitItem | src/structure_visitor.rs:326-347 | the walk of a trait item appends what its provided body declares |
| StructureVisiting.StructureVisitor.VisitTraitItems | src/structure_visitor.rs:326-347 | a trait's items append their elements in order |
| StructureVisiting.StructureVisitor.VisitImplItem | src/structure_visitor.rs:349-369 | an impl const is a `Var` and an impl type a `TypeAlias`; methods and macros get no element of their own |
| StructureVisiting.StructureVisitor.WalkImplItem | src/structure_visitor.rs:349-369 | the walk of an impl method visits it as a function |
| StructureVisiting.StructureVisitor.VisitImplItems | src/structure_visitor.rs:349-369 | an impl's items append their elements in order |
| StructureVisiting.StructureVisitor.VisitFn | src/structure_visitor.rs:373-390 | a named function or method appends one function element; a closure appends nothing |
| StructureVisiting.StructureVisitor.WalkFn | src/structure_visitor.rs:373-390 | the walk of a function appends the elements of the declarations in its body |
| StructureVisiting.StructureVisitor.VisitForeignItem | src/structure_visitor.rs:392-407 | a foreign function is a `Function` and a foreign static a `Var`, both without description |
| StructureVisiting.StructureVisitor.VisitForeignItems | src/structure_visitor.rs:392-407 | an extern block's items append their elements in order |
| OutlineFacts.UseSimpleSpec | src/structure_visitor.rs:112-124 | a simple `use` writes nothing exactly when its path has no segment, and has an ` as` clause exactly when the bound name is not the last segment |
| OutlineFacts.PathListTextAppend | src/structure_visitor.rs:133-150 | the list text of two item runs is the concatenation of theirs |
| OutlineFacts.PathListTextTrailingSeparator | src/structure_visitor.rs:149-151 | a non-empty list ends with `, `, the last item included |
| OutlineFacts.UseSimpleExamples | src/structure_visitor.rs:588-592 | the tests' simple, renamed, global and glob `use` paths render as expected |
| OutlineFacts.UseListExample | src/structure_visitor.rs:593-594 | `use blah::foo:: { One as OtherOne, self as Two }` renders as in the test |
| OutlineFacts.UseElementsShape | src/structure_visitor.rs:155-156 | a `use` yields at most one element: a `Use` with the item's range, no description and no children |
| OutlineFacts.ArgsTextLength | src/structure_visitor.rs:165-185 | every parameter after the first adds a two-character separator, whatever its own text |
| OutlineFacts.TypeDescExamples | src/structure_visitor.rs:537-541 | the tests' signatures, plus a receiver and an unreadable parameter, render as expected |
| OutlineFacts.EnumExample | src/structure_visitor.rs:545-549 | `enum MyEnum { Alpha, Beta, }` gives an `Enum` holding the two childless variants, as in the test |
| OutlineFacts.StructExamples | src/structure_visitor.rs:557-562 | a tuple struct gives a childless `Struct`; `struct MyStruct { foo : u32, }` gives a `Struct` holding a `Var`, as in the tests |
| OutlineFacts.TraitExample | src/structure_visitor.rs:569-574 | the test's trait gives a `Trait` holding a `TypeAlias`, a `Function` described `(self)` and a `Var`, in order |
| OutlineFacts.MacroExamples | src/structure_visitor.rs:597-602 | a macro item gives no element; a function whose body holds only a statement macro is a childless `()` Function, since the walk hands back no item for it |
| OutlineFacts.ExternExamples | src/structure_visitor.rs:605-617 | an extern crate gives one `ExternCrate`; an extern block gives a nameless `Mod` holding a `Function` and a `Var` |
| OutlineFacts.ItemsElementsAppend | src/structure_visitor.rs:216-223 | the outline of a run of items is the concatenation of theirs, in order |
| OutlineFacts.FieldsElementsAreVars | src/structure_visitor.rs:318-324 | the fields give one childless `Var` per named field |
| OutlineFacts.VariantsElementsShape | src/structure_visitor.rs:296-316 | an enum gives one `EnumVariant` per variant, in order, with the variant's name, range and named fields |
| OutlineFacts.StructItemOutline | src/structure_visitor.rs:279-284 | a struct item gives a single `Struct` element holding its fields, with no wrapper around it |
| OutlineFacts.ModExample | src/structure_visitor.rs:531-535 | `mod myMod { static xx : u32 = 2; }` gives a `Mod` holding a `Var` of type `u32` |
| OutlineFacts.ItemsShaped | src/structure_visitor.rs:225-407 | every element built for a crate is well-formed: uses have no children, only variables and functions carry a description, structs and variants hold only variables |

## Left out

- The worker thread and the `Arc<Mutex<…>>` message list (src/parse_describe.rs:55-74) are concurrency, and are not modelled. The message list is a plain sequence owned by the emitter. A panic in the worker is modelled by its effect: the messages gathered so far survive, and the join falls back to no element.
- The syntex parser is not part of this model: `parse_crate`, `parse_crate_do`, the handler and session setup, and the `CodeMap`. Its effect enters as two inputs: the diagnostics it emits, in order, and the crate's items when the parse succeeds. A failed parse's own diagnostic is the last of those diagnostics. Diagnostic spans arrive already resolved to ranges.
- `SourceRange::new`, `span_to_snippet` and `pprust::path_to_string` are the parser's lookups. They become inputs: resolved ranges, optional snippets, and a path's printed text.
- The parser's `walk_*` functions are modelled by what they hand back to the visitor. For types, patterns and expressions that is nothing. For a function body it is the items declared in its block.
- `parse_analysis` and `parse_analysis_for_Stdout` (src/parse_describe.rs:37-50) are not separate members. They compose `ParseCrateWithMessages` with `WriteParseAnalysisDo` and then write to stdout.
- I/O is not modelled: stdout, the `StdoutWrite` sink, and the stderr writes in `emit` and in `writeElement_handled`. The panic after the stderr write in `emit` is modelled.
- `DummyFileLoader::abs_path` reads the current directory and is not modelled.
- Error plumbing is not modelled: boxed errors, `From` conversions and `unwrap_Rc_RefCell`. The writer's outcomes are `Pass`, a sink failure, or a rejected raw token.
- The older `rust_parse_describe` crate is not part of this model, apart from its `writeNTimes`.
- StructureVisiting.StructureVisitor.WriteElement: `writeElement_do` always returns Ok, so the stderr branch of `writeElement_handled` cannot run. The model has no such branch.
- OutlineFacts.UseSimpleSpec: identifiers are compared by name only. The syntax context that `Ident` equality also compares is not modelled.
- DescribeWriter.WriteIndent: `level * 2` is a `u32` product in the source, and the model does not wrap it at 2^32. Nesting that deep cannot occur in a parsed file.
- DescribeWriter.WriteStructureElement: `level + 1` is not wrapped at 2^32 either, for the same reason.
- DescribeWriter.OutputSourceRange: `line - 1` underflows on a `usize` line of 0. The model requires lines of at least 1, which holds for every range the code map produces, since its lines are 1-based.
- There are eleven element kinds, as the code has them. No element exists for unions, trait aliases or macro definitions.
- A diagnostic with no primary span produces no message, as the code does. No range-less message is made for it.
- The readers in `DescribeReader` and `DescribeElementReader` are part of the model, not of the source. They skip any whitespace between an element's `}` or its children, so they do not check indentation. The indentation is pinned down by `DescribeFormat` and by the literal test outputs in `DescribeFacts`.
- TokenWriting.TokenWriter.WriteRawToken, DescribeWriter.OutputSourceRange and the other multi-character writers: their contracts do not say that they stop at their first failing write. Once a write has failed the sink takes nothing more, so the text they leave is the same either way. Only the one-character writers count their calls.
- The implementation tests at src/structure_visitor.rs:576-585 are commented out in the source, and have no counterpart here.
- The loops of `write_structure_element` and `write_parse_analysis_contents` are written as their own methods (`WriteChildren`, `WriteMessages`, `WriteElements`). The fixed opening writes of an element are also grouped as `WriteHeader`. The writes happen in the same order as in the source.
