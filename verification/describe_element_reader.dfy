/**
 * Reading the element part of the describe output back, and with it the
 * whole output, as a consumer of the output does. The reader skips the line
 * breaks and indentation between elements instead of checking them. The
 * lemmas show the element format is unambiguous too: every printable outline
 * is read back as itself, so the whole output gives back exactly the
 * messages and the elements written into it.
 */
module DescribeElementReader {
  import opened Wrappers
  import opened SourceModel
  import opened TokenWriting
  import opened StringUtil
  import opened DescribeFormat
  import opened DescribeReader
  import opened SeqUtil

  /* ----------------- layout ----------------- */

  predicate AllSpace(w: string)
  {
    forall i :: 0 <= i < |w| ==> IsWhitespace(w[i])
  }

  /** Drops the whitespace `t` starts with: what is left is a suffix of `t`, behind whitespace only. */
  function SkipSpace(t: string): (r: string)
    ensures |r| <= |t|
    ensures r == t[|t| - |r|..] && AllSpace(t[..|t| - |r|])
    ensures r == [] || !IsWhitespace(r[0])
  {
    if t != [] && IsWhitespace(t[0]) then SkipSpace(t[1..]) else t
  }

  lemma {:induction false} SkipSpaceAppend(w: string, t: string)
    requires AllSpace(w)
    ensures SkipSpace(w + t) == SkipSpace(t)
    decreases |w|
  {
    if w == [] {
      assert w + t == t;
    } else {
      assert (w + t)[0] == w[0];
      assert (w + t)[1..] == w[1..] + t;
      SkipSpaceAppend(w[1..], t);
    }
  }

  /** The line break and indentation in front of a child, or of a parent's closing `}`. */
  lemma LineBreakIsSpace(level: nat)
    ensures AllSpace("\n" + Indent(level))
  {
    var w := "\n" + Indent(level);
    forall i | 0 <= i < |w| ensures IsWhitespace(w[i]) {
      if i > 0 { assert w[i] == Indent(level)[i - 1] == ' '; }
    }
  }

  /** Nothing is skipped in front of a letter, and a letter is no closing `}`. */
  lemma SkipSpaceLetter(t: string)
    requires t != [] && IsAsciiLetter(t[0])
    ensures SkipSpace(t) == t && t[0] != '}'
  {
    assert !IsWhitespace(t[0]);
  }

  /** Whether `t` opens another element once its leading whitespace is dropped. */
  predicate OpensElement(t: string)
  {
    var u := SkipSpace(t);
    u != [] && IsAsciiLetter(u[0])
  }

  /* ----------------- one element ----------------- */

  /**
   * Reads an element's header: its kind, name, range, the empty name range,
   * its description and the empty attribute list.
   */
  function ReadHeader(t: string): (r: Option<(StructureElementKind, string, SourceRange, string, string)>)
    ensures r.Some? ==> |r.value.4| < |t|
  {
    var (word, t1) := ReadWord(t);
    match KindFromName(word)
    case None => None
    case Some(kind) =>
      match Expect(" { ", t1)
      case None => None
      case Some(t2) =>
        match ReadQuoted(t2)
        case None => None
        case Some((name, t3)) =>
          match Expect(" ", t3)
          case None => None
          case Some(t4) =>
            match ReadRange(t4)
            case None => None
            case Some((sr, t5)) =>
              match Expect(" {} ", t5)
              case None => None
              case Some(t6) =>
                match ReadQuoted(t6)
                case None => None
                case Some((desc, t7)) =>
                  match Expect(" {}", t7)
                  case None => None
                  case Some(t8) => Some((kind, name, sr, desc, t8))
  }

  /** One successful pass of `ReadHeader`, stated on its intermediate results. */
  lemma ReadHeaderStep(t: string, kind: StructureElementKind, t1: string, t2: string, name: string, t3: string,
                       t4: string, sr: SourceRange, t5: string, t6: string, desc: string, t7: string, t8: string)
    requires ReadWord(t) == (KindName(kind), t1) && Expect(" { ", t1) == Some(t2)
    requires ReadQuoted(t2) == Some((name, t3)) && Expect(" ", t3) == Some(t4)
    requires ReadRange(t4) == Some((sr, t5)) && Expect(" {} ", t5) == Some(t6)
    requires ReadQuoted(t6) == Some((desc, t7)) && Expect(" {}", t7) == Some(t8)
    ensures ReadHeader(t) == Some((kind, name, sr, desc, t8))
  {
    KindNameRoundTrip(kind);
  }

  lemma HeaderTail(h: string, qd: string, rest: string)
    ensures ((h + (qd + " ")) + "{}") + rest == h + (qd + (" {}" + rest))
  {
    JoinRegroup(h + (qd + " "), "{}", rest);
    JoinRegroup(h, qd + " ", "{}" + rest);
    JoinRegroup(qd, " ", "{}" + rest);
    JoinRegroup(" ", "{}", rest);
  }

  lemma HeaderMiddle(h: string, t: string)
    ensures ((h + " {}") + " ") + t == h + (" {} " + t)
  {
    JoinRegroup(h + " {}", " ", t);
    JoinRegroup(h, " {}", " " + t);
    JoinRegroup(" {}", " ", t);
  }

  lemma HeaderName(h: string, qn: string, r: string, t: string)
    ensures ((h + (qn + " ")) + r) + t == h + (qn + (" " + (r + t)))
  {
    JoinRegroup(h + (qn + " "), r, t);
    JoinRegroup(h, qn + " ", r + t);
    JoinRegroup(qn, " ", r + t);
  }

  lemma HeaderHead(k: string, t: string)
    ensures ((k + " ") + "{ ") + t == k + (" { " + t)
  {
    JoinRegroup(k + " ", "{ ", t);
    JoinRegroup(k, " ", "{ " + t);
    JoinRegroup(" ", "{ ", t);
  }

  /** A printed header, regrouped from the front so that each field can be read off in turn. */
  lemma HeaderTextSplit(e: StructureElement, rest: string)
    requires HasOneBasedLines(e.sourcerange)
    ensures HeaderText(e) + rest
      == KindName(e.kind) + (" { " + (Quoted(e.name) + (" " + (RangeText(e.sourcerange)
           + (" {} " + (Quoted(e.typeDesc) + (" {}" + rest)))))))
  {
    var k, qn, r, qd := KindName(e.kind), Quoted(e.name), RangeText(e.sourcerange), Quoted(e.typeDesc);
    var h2 := (k + " ") + "{ ";
    var h4 := (h2 + (qn + " ")) + r;
    var t6 := qd + (" {}" + rest);
    HeaderTail((h4 + " {}") + " ", qd, rest);
    HeaderMiddle(h4, t6);
    HeaderName(h2, qn, r, " {} " + t6);
    HeaderHead(k, qn + (" " + (r + (" {} " + t6))));
  }

  /** A printed header is read back as the element's own fields, whatever follows it. */
  lemma HeaderRoundTrip(e: StructureElement, rest: string)
    requires HasOneBasedLines(e.sourcerange)
    ensures ReadHeader(HeaderText(e) + rest) == Some((e.kind, e.name, e.sourcerange, e.typeDesc, rest))
  {
    var t7 := " {}" + rest;
    var t6 := Quoted(e.typeDesc) + t7;
    var t5 := " {} " + t6;
    var t4 := RangeText(e.sourcerange) + t5;
    var t3 := " " + t4;
    var t2 := Quoted(e.name) + t3;
    var t1 := " { " + t2;
    var name := KindName(e.kind);
    HeaderTextSplit(e, rest);
    ReadWordLetters(name, t1);
    ExpectPrefix(" { ", t2);
    ReadQuotedRoundTrip(e.name, t3);
    ExpectPrefix(" ", t4);
    RangeRoundTrip(e.sourcerange, t5);
    ExpectPrefix(" {} ", t6);
    ReadQuotedRoundTrip(e.typeDesc, t7);
    ExpectPrefix(" {}", rest);
    ReadHeaderStep(name + t1, e.kind, t1, t2, e.name, t3, t4, e.sourcerange, t5, t6, e.typeDesc, t7, rest);
  }

  /** Reads an element: its header, then its children up to its closing `}`. */
  function ReadElement(t: string): (r: Option<(StructureElement, string)>)
    ensures r.Some? ==> |r.value.1| < |t|
    decreases |t|, 0
  {
    match ReadHeader(t)
    case None => None
    case Some((kind, name, sr, desc, t1)) =>
      match ReadChildren(t1)
      case None => None
      case Some((children, t2)) => Some((StructureElement(name, kind, sr, desc, children), t2))
  }

  /** Reads the children of an element, one after the other, and the `}` that closes it. */
  function ReadChildren(t: string): (r: Option<(seq<StructureElement>, string)>)
    ensures r.Some? ==> |r.value.1| < |t|
    decreases |t|, 1
  {
    var u := SkipSpace(t);
    if u == [] then None
    else if u[0] == '}' then Some(([], u[1..]))
    else
      match ReadElement(u)
      case None => None
      case Some((child, t1)) =>
        match ReadChildren(t1)
        case None => None
        case Some((children, t2)) => Some(([child] + children, t2))
  }

  lemma ReadElementStep(t: string, kind: StructureElementKind, name: string, sr: SourceRange, desc: string,
                        t1: string, children: seq<StructureElement>, t2: string)
    requires ReadHeader(t) == Some((kind, name, sr, desc, t1)) && ReadChildren(t1) == Some((children, t2))
    ensures ReadElement(t) == Some((StructureElement(name, kind, sr, desc, children), t2))
  {
  }

  lemma ReadChildrenNext(t: string, child: StructureElement, t1: string, children: seq<StructureElement>, t2: string)
    requires SkipSpace(t) != [] && SkipSpace(t)[0] != '}'
    requires ReadElement(SkipSpace(t)) == Some((child, t1)) && ReadChildren(t1) == Some((children, t2))
    ensures ReadChildren(t) == Some(([child] + children, t2))
  {
  }

  /** A child on a line of its own, after the line break and indentation, is read as the next child. */
  lemma ReadChildrenStep(lead: string, first: string, child: StructureElement, t1: string,
                         children: seq<StructureElement>, t2: string)
    requires AllSpace(lead) && first != [] && IsAsciiLetter(first[0])
    requires ReadElement(first) == Some((child, t1)) && ReadChildren(t1) == Some((children, t2))
    ensures ReadChildren(lead + first) == Some(([child] + children, t2))
  {
    SkipSpaceAppend(lead, first);
    SkipSpaceLetter(first);
    ReadChildrenNext(lead + first, child, t1, children, t2);
  }

  /** A printed element starts with its kind's name, a letter. */
  lemma ElementTextOpens(e: StructureElement, level: nat, rest: string)
    requires ElementPrintable(e)
    ensures ElementText(e, level) + rest != []
    ensures (ElementText(e, level) + rest)[0] == KindName(e.kind)[0]
  {
    var k := KindName(e.kind);
    if e.children == [] {
      LeafTextSplit(e, level, rest);
      HeaderTextSplit(e, " " + ("}" + rest));
    } else {
      ParentTextSplit(e, level, rest);
      HeaderTextSplit(e, ChildrenText(e.children, level + 1) + (("\n" + Indent(level)) + ("}" + rest)));
    }
    assert |k| > 0;
  }

  /** A printed element starts with a letter, never with whitespace or `}`. */
  lemma ElementTextSkipped(e: StructureElement, level: nat, rest: string)
    requires ElementPrintable(e)
    ensures SkipSpace(ElementText(e, level) + rest) == ElementText(e, level) + rest
    ensures OpensElement(ElementText(e, level) + rest)
  {
    ElementTextOpens(e, level, rest);
  }

  /** Printable elements with one more in front. */
  lemma ElementsPrintableCons(c: StructureElement, cs: seq<StructureElement>)
    requires ElementPrintable(c) && ElementsPrintable(cs)
    ensures ElementsPrintable([c] + cs)
    ensures cs != [] ==> ElementsPrintable(cs[..|cs| - 1]) && ElementsPrintable(cs[1..])
  {
    var all := [c] + cs;
    forall i | 0 <= i < |all| ensures ElementPrintable(all[i]) {
      if i > 0 { assert all[i] == cs[i - 1]; }
    }
    if cs != [] {
      var init, tail := cs[..|cs| - 1], cs[1..];
      forall i | 0 <= i < |init| ensures ElementPrintable(init[i]) {
        assert init[i] == cs[i];
      }
      forall i | 0 <= i < |tail| ensures ElementPrintable(tail[i]) {
        assert tail[i] == cs[i + 1];
      }
    }
  }

  lemma ElementsPrintableTail(es: seq<StructureElement>)
    requires ElementsPrintable(es) && es != []
    ensures ElementPrintable(es[0]) && ElementsPrintable(es[1..])
  {
    var tail := es[1..];
    forall i | 0 <= i < |tail| ensures ElementPrintable(tail[i]) {
      assert tail[i] == es[i + 1];
    }
  }

  /** The children text ends with its last child's line. */
  lemma ChildrenTextSnoc(init: seq<StructureElement>, last: StructureElement, level: nat)
    requires ElementsPrintable(init + [last])
    ensures ElementsPrintable(init) && ElementPrintable(last)
    ensures ChildrenText(init + [last], level)
      == ChildrenText(init, level) + ("\n" + Indent(level) + ElementText(last, level))
  {
    var cs := init + [last];
    assert cs[..|cs| - 1] == init && cs[|cs| - 1] == last;
    assert ElementsPrintable(init) by {
      forall i | 0 <= i < |init| ensures ElementPrintable(init[i]) {
        assert init[i] == cs[i];
      }
    }
    var ct, ind, e := ChildrenText(init, level), Indent(level), ElementText(last, level);
    JoinRegroup(ct + "\n", ind, e);
    JoinRegroup(ct, "\n", ind + e);
    JoinRegroup("\n", ind, e);
  }

  /** One more child at the back keeps the first child's line in front. */
  lemma ChildrenTextConsStep(c: StructureElement, init: seq<StructureElement>, last: StructureElement, level: nat)
    requires ElementPrintable(c) && ElementsPrintable(([c] + init) + [last]) && ElementsPrintable(init + [last])
    requires ElementsPrintable([c] + init) && ElementsPrintable(init)
    requires ChildrenText([c] + init, level) == "\n" + Indent(level) + ElementText(c, level) + ChildrenText(init, level)
    ensures ChildrenText(([c] + init) + [last], level)
      == "\n" + Indent(level) + ElementText(c, level) + ChildrenText(init + [last], level)
  {
    ChildrenTextSnoc([c] + init, last, level);
    ChildrenTextSnoc(init, last, level);
    JoinRegroup("\n" + Indent(level) + ElementText(c, level), ChildrenText(init, level),
                "\n" + Indent(level) + ElementText(last, level));
  }

  /** The children text with one more child in front. */
  lemma {:induction false} ChildrenTextCons(c: StructureElement, cs: seq<StructureElement>, level: nat)
    requires ElementPrintable(c) && ElementsPrintable(cs)
    ensures ElementsPrintable([c] + cs)
    ensures ChildrenText([c] + cs, level) == "\n" + Indent(level) + ElementText(c, level) + ChildrenText(cs, level)
    decreases |cs|
  {
    ElementsPrintableCons(c, cs);
    if cs != [] {
      var init, last := cs[..|cs| - 1], cs[|cs| - 1];
      assert cs == init + [last];
      assert [c] + cs == ([c] + init) + [last];
      ChildrenTextCons(c, init, level);
      ChildrenTextConsStep(c, init, last, level);
    } else {
      assert [c] + cs == [] + [c];
      ChildrenTextSnoc([], c, level);
    }
  }

  /** Printed children and what follows them, split after the first child. */
  lemma ChildrenTextSplit(c: StructureElement, tail: seq<StructureElement>, level: nat, rest: string)
    requires ElementPrintable(c) && ElementsPrintable(tail)
    ensures ElementsPrintable([c] + tail)
    ensures ChildrenText([c] + tail, level) + rest
      == ("\n" + Indent(level)) + (ElementText(c, level) + (ChildrenText(tail, level) + rest))
  {
    ChildrenTextCons(c, tail, level);
    var lead, first := "\n" + Indent(level), ElementText(c, level);
    JoinRegroup(lead + first, ChildrenText(tail, level), rest);
    JoinRegroup(lead, first, ChildrenText(tail, level) + rest);
  }

  /**
   * An element reads back as itself, whatever follows it; its children are
   * read back in order, each as itself.
   */
  /** A leaf's text is its header, a space and its closing `}`. */
  lemma LeafTextSplit(e: StructureElement, level: nat, rest: string)
    requires ElementPrintable(e) && e.children == []
    ensures ElementText(e, level) + rest == HeaderText(e) + (" " + ("}" + rest))
  {
    assert ElementText(e, level) == HeaderText(e) + " " + "}";
    JoinRegroup(HeaderText(e) + " ", "}", rest);
    JoinRegroup(HeaderText(e), " ", "}" + rest);
  }

  /** A parent's text is its header, its children, then its own indentation and closing `}`. */
  lemma ParentTextSplit(e: StructureElement, level: nat, rest: string)
    requires ElementPrintable(e) && e.children != []
    ensures ElementsPrintable(e.children)
    ensures ElementText(e, level) + rest
      == HeaderText(e) + (ChildrenText(e.children, level + 1) + (("\n" + Indent(level)) + ("}" + rest)))
  {
    var ct, ind := ChildrenText(e.children, level + 1), Indent(level);
    assert ElementText(e, level) == HeaderText(e) + (ct + "\n" + ind) + "}";
    JoinRegroup(HeaderText(e) + (ct + "\n" + ind), "}", rest);
    JoinRegroup(HeaderText(e), ct + "\n" + ind, "}" + rest);
    JoinRegroup(ct + "\n", ind, "}" + rest);
    JoinRegroup(ct, "\n", ind + ("}" + rest));
    JoinRegroup("\n", ind, "}" + rest);
  }

  /**
   * An element reads back as itself, whatever follows it; its children are
   * read back in order, each as itself.
   */
  lemma {:induction false} ElementRoundTrip(e: StructureElement, level: nat, rest: string)
    requires ElementPrintable(e)
    ensures ReadElement(ElementText(e, level) + rest) == Some((e, rest))
    decreases e, 1
  {
    var t1: string;
    if e.children == [] {
      t1 := " " + ("}" + rest);
      LeafTextSplit(e, level, rest);
      ChildrenRoundTripNil(" ", rest);
    } else {
      var lead := "\n" + Indent(level);
      t1 := ChildrenText(e.children, level + 1) + (lead + ("}" + rest));
      ParentTextSplit(e, level, rest);
      LineBreakIsSpace(level);
      ChildrenRoundTrip(e.children, level + 1, lead, rest);
    }
    HeaderRoundTrip(e, t1);
    ReadElementStep(ElementText(e, level) + rest, e.kind, e.name, e.sourcerange, e.typeDesc, t1, e.children, rest);
  }

  /** No children: only the whitespace and the closing `}` are read. */
  lemma ChildrenRoundTripNil(w: string, rest: string)
    requires AllSpace(w)
    ensures ReadChildren(w + ("}" + rest)) == Some(([], rest))
  {
    SkipSpaceAppend(w, "}" + rest);
    assert SkipSpace("}" + rest) == "}" + rest;
    assert ("}" + rest)[1..] == rest;
  }

  /** The children with one more child in front still read back, given that the first child and the rest do. */
  lemma ChildrenRoundTripCons(c: StructureElement, tail: seq<StructureElement>, level: nat, closing: string, rest: string)
    requires ElementPrintable(c) && ElementsPrintable(tail)
    requires ReadElement(ElementText(c, level) + (ChildrenText(tail, level) + closing))
      == Some((c, ChildrenText(tail, level) + closing))
    requires ReadChildren(ChildrenText(tail, level) + closing) == Some((tail, rest))
    ensures ElementsPrintable([c] + tail)
    ensures ReadChildren(ChildrenText([c] + tail, level) + closing) == Some(([c] + tail, rest))
  {
    var after := ChildrenText(tail, level) + closing;
    var first := ElementText(c, level) + after;
    var lead := "\n" + Indent(level);
    ChildrenTextSplit(c, tail, level, closing);
    LineBreakIsSpace(level);
    ElementTextOpens(c, level, after);
    ReadChildrenStep(lead, first, c, after, tail, rest);
  }

  /**
   * Printed children, followed by any whitespace and a `}`, read back as
   * the children, in order.
   */
  lemma {:induction false} ChildrenRoundTrip(cs: seq<StructureElement>, level: nat, w: string, rest: string)
    requires ElementsPrintable(cs) && AllSpace(w)
    ensures ReadChildren(ChildrenText(cs, level) + (w + ("}" + rest))) == Some((cs, rest))
    decreases cs, 0
  {
    var closing := w + ("}" + rest);
    if cs == [] {
      assert ChildrenText(cs, level) + closing == closing;
      ChildrenRoundTripNil(w, rest);
    } else {
      var c, tail := cs[0], cs[1..];
      assert [c] + tail == cs;
      ElementsPrintableTail(cs);
      ElementRoundTrip(c, level, ChildrenText(tail, level) + closing);
      ChildrenRoundTrip(tail, level, w, rest);
      ChildrenRoundTripCons(c, tail, level, closing, rest);
    }
  }

  /* ----------------- the top-level elements ----------------- */

  /** Reads elements one after the other until the text no longer opens one. */
  function ReadElements(t: string): Option<(seq<StructureElement>, string)>
    decreases |t|
  {
    if !OpensElement(t) then Some(([], t))
    else match ReadElement(SkipSpace(t))
      case None => None
      case Some((e, t1)) =>
        match ReadElements(t1)
        case None => None
        case Some((es, t2)) => Some(([e] + es, t2))
  }

  lemma ReadElementsStep(t: string, e: StructureElement, t1: string, es: seq<StructureElement>, t2: string)
    requires OpensElement(t) && ReadElement(SkipSpace(t)) == Some((e, t1)) && ReadElements(t1) == Some((es, t2))
    ensures ReadElements(t) == Some(([e] + es, t2))
  {
  }

  lemma {:induction false} ElementsTextCons(e: StructureElement, es: seq<StructureElement>)
    requires ElementPrintable(e) && ElementsPrintable(es)
    ensures ElementsPrintable([e] + es)
    ensures ElementsText([e] + es) == ElementText(e, 0) + ElementsText(es)
    decreases |es|
  {
    var all := [e] + es;
    ElementsPrintableCons(e, es);
    if es != [] {
      var init, last := es[..|es| - 1], es[|es| - 1];
      assert all[..|all| - 1] == [e] + init;
      assert all[|all| - 1] == last;
      ElementsTextCons(e, init);
      assert ElementsText(all) == ElementsText([e] + init) + ElementText(last, 0);
      JoinRegroup(ElementText(e, 0), ElementsText(init), ElementText(last, 0));
    } else {
      assert all[..0] == [];
    }
  }

  /**
   * The top-level elements read back as those written, in order, when the
   * text after them does not open another element.
   */
  lemma {:induction false} ElementsRoundTrip(es: seq<StructureElement>, rest: string)
    requires ElementsPrintable(es)
    requires !OpensElement(rest)
    ensures ReadElements(ElementsText(es) + rest) == Some((es, rest))
    decreases |es|
  {
    if es == [] {
      assert ElementsText(es) + rest == rest;
    } else {
      var e, tail := es[0], es[1..];
      assert [e] + tail == es;
      ElementsPrintableTail(es);
      ElementsTextCons(e, tail);
      var after := ElementsText(tail) + rest;
      JoinRegroup(ElementText(e, 0), ElementsText(tail), rest);
      ElementTextSkipped(e, 0, after);
      ElementRoundTrip(e, 0, after);
      ElementsRoundTrip(tail, rest);
      ReadElementsStep(ElementText(e, 0) + after, e, after, tail, rest);
    }
  }

  /* ----------------- the whole output ----------------- */

  /** Reads a whole output: the envelope, the messages block, then the elements up to the closing `}`. */
  function ReadAnalysis(t: string): Option<(seq<SourceMessage>, seq<StructureElement>)>
  {
    match Expect("RUST_PARSE_DESCRIBE 1.0 {\n", t)
    case None => None
    case Some(t1) =>
      match Expect("MESSAGES {\n", t1)
      case None => None
      case Some(t2) =>
        match ReadMessages(t2)
        case None => None
        case Some((ms, t3)) =>
          match Expect("}\n", t3)
          case None => None
          case Some(t4) =>
            match ReadElements(t4)
            case None => None
            case Some((es, t5)) => if t5 == "\n}" then Some((ms, es)) else None
  }

  lemma ReadAnalysisStep(t: string, t1: string, t2: string, ms: seq<SourceMessage>, t3: string,
                         t4: string, es: seq<StructureElement>)
    requires Expect("RUST_PARSE_DESCRIBE 1.0 {\n", t) == Some(t1) && Expect("MESSAGES {\n", t1) == Some(t2)
    requires ReadMessages(t2) == Some((ms, t3)) && Expect("}\n", t3) == Some(t4)
    requires ReadElements(t4) == Some((es, "\n}"))
    ensures ReadAnalysis(t) == Some((ms, es))
  {
  }

  /** The envelope, regrouped so that each reading step sees its literal at the front. */
  lemma EnvelopeRegroup(h: string, o: string, mt: string, c: string, et: string, cl: string)
    ensures h + (o + mt + c + et) + cl == h + (o + (mt + (c + (et + cl))))
  {
    JoinRegroup(o + mt + c, et, cl);
    JoinRegroup(o + mt, c, et + cl);
    JoinRegroup(o, mt, c + (et + cl));
    JoinRegroup(h, o + mt + c + et, cl);
  }

  lemma AnalysisTextSplit(ms: seq<SourceMessage>, es: seq<StructureElement>)
    requires MessagesPrintable(ms) && ElementsPrintable(es)
    ensures AnalysisText(ms, es)
         == "RUST_PARSE_DESCRIBE 1.0 {\n" + ("MESSAGES {\n" + (MessagesText(ms) + ("}\n" + (ElementsText(es) + "\n}"))))
  {
    EnvelopeRegroup("RUST_PARSE_DESCRIBE 1.0 {\n", "MESSAGES {\n", MessagesText(ms), "}\n", ElementsText(es), "\n}");
  }

  /** Layout followed by a closing `}` does not start another element. */
  lemma ClosingOpensNothing(w: string, closing: string)
    requires AllSpace(w) && closing != [] && closing[0] == '}'
    ensures !OpensElement(w + closing)
  {
    SkipSpaceAppend(w, closing);
    assert !IsWhitespace(closing[0]);
  }

  /** A whole output reads back as exactly the messages and the elements written into it. */
  lemma AnalysisRoundTrip(ms: seq<SourceMessage>, es: seq<StructureElement>)
    requires MessagesPrintable(ms) && ElementsPrintable(es)
    ensures ReadAnalysis(AnalysisText(ms, es)) == Some((ms, es))
  {
    var after := ElementsText(es) + "\n}";
    var rest := "}\n" + after;
    var t2 := MessagesText(ms) + rest;
    var t1 := "MESSAGES {\n" + t2;
    AnalysisTextSplit(ms, es);
    ExpectPrefix("RUST_PARSE_DESCRIBE 1.0 {\n", t1);
    ExpectPrefix("MESSAGES {\n", t2);
    ExpectPrefix("}\n", after);
    assert Expect("{ ", rest).None? by { assert rest[0] == '}'; }
    MessagesRoundTrip(ms, rest);
    assert AllSpace("\n") by { assert IsWhitespace("\n"[0]); }
    ClosingOpensNothing("\n", "}");
    ElementsRoundTrip(es, "\n}");
    ReadAnalysisStep(AnalysisText(ms, es), t1, t2, ms, rest, after, es);
  }
}
