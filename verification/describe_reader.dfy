/**
 * Reading the message part of the describe output back, as a consumer of the
 * output does: numbers, ranges, messages and the message list. The lemmas
 * show the writer's format is unambiguous: every printable message is read
 * back as itself, whatever text follows it. DescribeElementReader reads the
 * elements and the whole output.
 */
module DescribeReader {
  import opened Wrappers
  import opened SourceModel
  import opened TokenWriting
  import opened DescribeFormat
  import opened SeqUtil

  /* ----------------- numbers ----------------- */

  function DigitValue(c: char): (d: nat)
    ensures d < 10
  {
    if IsDigit(c) then c as int - 48 else 0
  }

  predicate AllDigits(s: string)
  {
    forall i :: 0 <= i < |s| ==> IsDigit(s[i])
  }

  /** The value of a string of decimal digits. */
  function DigitsValue(s: string): nat
  {
    if s == [] then 0 else DigitsValue(s[..|s| - 1]) * 10 + DigitValue(s[|s| - 1])
  }

  /** The length of the run of digits `t` starts with. */
  function DigitSpan(t: string): (k: nat)
    ensures k <= |t|
  {
    if t != [] && IsDigit(t[0]) then 1 + DigitSpan(t[1..]) else 0
  }

  /** Reads a number greedily off the front of `t`. */
  function ReadNat(t: string): (r: Option<(nat, string)>)
    ensures r.Some? ==> |r.value.1| < |t|
  {
    var k := DigitSpan(t);
    if k == 0 then None else Some((DigitsValue(t[..k]), t[k..]))
  }

  lemma {:induction false} DecimalValue(n: nat)
    ensures DigitsValue(Decimal(n)) == n
    decreases n
  {
    if n >= 10 {
      var s := Decimal(n);
      assert s[..|s| - 1] == Decimal(n / 10);
      DecimalValue(n / 10);
    }
  }

  lemma {:induction false} DigitSpanAppend(s: string, rest: string)
    requires AllDigits(s)
    ensures DigitSpan(s + rest) == |s| + DigitSpan(rest)
    decreases |s|
  {
    if s != [] {
      assert (s + rest)[1..] == s[1..] + rest;
      DigitSpanAppend(s[1..], rest);
    } else {
      assert s + rest == rest;
    }
  }

  /** A run of digits is read whole when no digit follows it. */
  lemma ReadNatDigits(s: string, rest: string)
    requires s != [] && AllDigits(s)
    requires rest == [] || !IsDigit(rest[0])
    ensures ReadNat(s + rest) == Some((DigitsValue(s), rest))
  {
    DigitSpanAppend(s, rest);
    assert DigitSpan(rest) == 0;
    assert (s + rest)[..|s|] == s;
    assert (s + rest)[|s|..] == rest;
  }

  /** A number written by `Display` is read back as itself when no digit follows it. */
  lemma ReadNatDecimal(n: nat, rest: string)
    requires rest == [] || !IsDigit(rest[0])
    ensures ReadNat(Decimal(n) + rest) == Some((n, rest))
  {
    ReadNatDigits(Decimal(n), rest);
    DecimalValue(n);
  }

  /* ----------------- fixed text ----------------- */

  /** Consumes the fixed text `lit` off the front of `t`. */
  function Expect(lit: string, t: string): (r: Option<string>)
    ensures r.Some? ==> |r.value| == |t| - |lit|
  {
    if |lit| <= |t| && t[..|lit|] == lit then Some(t[|lit|..]) else None
  }

  lemma ExpectPrefix(lit: string, rest: string)
    ensures Expect(lit, lit + rest) == Some(rest)
  {
    assert (lit + rest)[..|lit|] == lit;
    assert (lit + rest)[|lit|..] == rest;
  }

  /* ----------------- ranges ----------------- */

  /** Reads `line:col ` and raises the line back by one. */
  function ReadPosition(t: string): (r: Option<(LineColumnPosition, string)>)
    ensures r.Some? ==> |r.value.1| < |t|
  {
    match ReadNat(t)
    case None => None
    case Some((line, t1)) =>
      match Expect(":", t1)
      case None => None
      case Some(t2) =>
        match ReadNat(t2)
        case None => None
        case Some((col, t3)) =>
          match Expect(" ", t3)
          case None => None
          case Some(t4) => Some((LineColumnPosition(line + 1, col), t4))
  }

  /** The printed form of one end of a range. */
  function PositionText(p: LineColumnPosition): string
    requires p.line >= 1
  {
    Decimal(p.line - 1) + ":" + Decimal(p.col) + " "
  }

  /** One successful pass of `ReadPosition`, stated on its intermediate results. */
  lemma ReadPositionStep(t: string, line: nat, t1: string, t2: string, col: nat, t3: string, t4: string)
    requires ReadNat(t) == Some((line, t1)) && Expect(":", t1) == Some(t2)
    requires ReadNat(t2) == Some((col, t3)) && Expect(" ", t3) == Some(t4)
    ensures ReadPosition(t) == Some((LineColumnPosition(line + 1, col), t4))
  {
  }

  /** A printed position is read back as itself, whatever follows it. */
  lemma PositionRoundTrip(p: LineColumnPosition, rest: string)
    requires p.line >= 1
    ensures ReadPosition(PositionText(p) + rest) == Some((p, rest))
  {
    var t3 := " " + rest;
    var t2 := Decimal(p.col) + t3;
    var t1 := ":" + t2;
    assert PositionText(p) + rest == Decimal(p.line - 1) + t1;
    ReadNatDecimal(p.line - 1, t1);
    ExpectPrefix(":", t2);
    ReadNatDecimal(p.col, t3);
    ExpectPrefix(" ", rest);
    ReadPositionStep(Decimal(p.line - 1) + t1, p.line - 1, t1, t2, p.col, t3, rest);
  }

  function ReadRange(t: string): (r: Option<(SourceRange, string)>)
    ensures r.Some? ==> |r.value.1| < |t|
  {
    match Expect("{ ", t)
    case None => None
    case Some(t1) =>
      match ReadPosition(t1)
      case None => None
      case Some((startPos, t2)) =>
        match ReadPosition(t2)
        case None => None
        case Some((endPos, t3)) =>
          match Expect("}", t3)
          case None => None
          case Some(t4) => Some((SourceRange(startPos, endPos), t4))
  }

  /** A printed range is read back as itself. */
  lemma RangeRoundTrip(sr: SourceRange, rest: string)
    requires HasOneBasedLines(sr)
    ensures ReadRange(RangeText(sr) + rest) == Some((sr, rest))
  {
    var t3 := "}" + rest;
    var t2 := PositionText(sr.endPos) + t3;
    var t1 := PositionText(sr.startPos) + t2;
    assert RangeText(sr) + rest == "{ " + t1;
    ExpectPrefix("{ ", t1);
    PositionRoundTrip(sr.startPos, t2);
    PositionRoundTrip(sr.endPos, t3);
    ExpectPrefix("}", rest);
  }

  /** Reads the range field of a message: `{ }` when there is none. */
  function ReadOptRange(t: string): (r: Option<(Option<SourceRange>, string)>)
    ensures r.Some? ==> |r.value.1| < |t|
  {
    match Expect("{ }", t)
    case Some(t1) => Some((None, t1))
    case None =>
      match ReadRange(t)
      case None => None
      case Some((sr, t1)) => Some((Some(sr), t1))
  }

  /** A printed range starts with a digit right after its opening `{ `, so it never reads as `{ }`. */
  lemma RangeTextOpens(sr: SourceRange, rest: string)
    requires HasOneBasedLines(sr)
    ensures Expect("{ }", RangeText(sr) + rest) == None
  {
    var d := Decimal(sr.startPos.line - 1);
    var t := RangeText(sr) + rest;
    assert PositionsText(sr)[0] == d[0];
    assert t == "{ " + (PositionsText(sr) + "}" + rest);
    assert t[2] == d[0];
    assert |t| >= 3 && t[..3][2] == t[2];
  }

  lemma OptRangeRoundTrip(sr: Option<SourceRange>, rest: string)
    requires OptRangePrintable(sr)
    ensures ReadOptRange(OptRangeText(sr) + rest) == Some((sr, " " + rest))
  {
    var u := " " + rest;
    match sr
    case None =>
      assert OptRangeText(sr) + rest == "{ }" + u;
      ExpectPrefix("{ }", u);
    case Some(r) =>
      assert OptRangeText(sr) + rest == RangeText(r) + u;
      RangeTextOpens(r, u);
      RangeRoundTrip(r, u);
  }

  /* ----------------- messages ----------------- */

  /** The length of the run of letters `t` starts with. */
  function LetterSpan(t: string): (k: nat)
    ensures k <= |t|
  {
    if t != [] && IsAsciiLetter(t[0]) then 1 + LetterSpan(t[1..]) else 0
  }

  lemma {:induction false} LetterSpanAppend(s: string, rest: string)
    requires forall i :: 0 <= i < |s| ==> IsAsciiLetter(s[i])
    ensures LetterSpan(s + rest) == |s| + LetterSpan(rest)
    decreases |s|
  {
    if s != [] {
      assert (s + rest)[1..] == s[1..] + rest;
      LetterSpanAppend(s[1..], rest);
    } else {
      assert s + rest == rest;
    }
  }

  /** Splits off the word of letters `t` starts with. */
  function ReadWord(t: string): (r: (string, string))
    ensures |r.1| <= |t|
  {
    var k := LetterSpan(t);
    (t[..k], t[k..])
  }

  /** A word is split off whole when no letter follows it. */
  lemma ReadWordLetters(s: string, rest: string)
    requires IsLetterWord(s)
    requires rest == [] || !IsAsciiLetter(rest[0])
    ensures ReadWord(s + rest) == (s, rest)
  {
    LetterSpanAppend(s, rest);
    assert LetterSpan(rest) == 0;
    assert (s + rest)[..|s|] == s;
    assert (s + rest)[|s|..] == rest;
  }

  /** Reads `{ LEVEL range "text" }` and the line break after it. */
  function ReadMessage(t: string): (r: Option<(SourceMessage, string)>)
    ensures r.Some? ==> |r.value.1| < |t|
  {
    match Expect("{ ", t)
    case None => None
    case Some(t1) =>
      var (word, t2) := ReadWord(t1);
      match SeverityFromName(word)
      case None => None
      case Some(sev) =>
        match Expect(" ", t2)
        case None => None
        case Some(t3) =>
          match ReadOptRange(t3)
          case None => None
          case Some((sr, t4)) =>
            match Expect(" ", t4)
            case None => None
            case Some(t5) =>
              match ReadQuoted(t5)
              case None => None
              case Some((text, t6)) =>
                match Expect(" }\n", t6)
                case None => None
                case Some(t7) => Some((SourceMessage(sev, sr, text), t7))
  }

  /** One successful pass of `ReadMessage`, stated on its intermediate results. */
  lemma ReadMessageStep(t: string, t1: string, sev: Severity, t2: string, t3: string,
                        sr: Option<SourceRange>, t4: string, t5: string, text: string, t6: string, t7: string)
    requires Expect("{ ", t) == Some(t1)
    requires ReadWord(t1) == (SeverityName(sev), t2) && Expect(" ", t2) == Some(t3)
    requires ReadOptRange(t3) == Some((sr, t4)) && Expect(" ", t4) == Some(t5)
    requires ReadQuoted(t5) == Some((text, t6)) && Expect(" }\n", t6) == Some(t7)
    ensures ReadMessage(t) == Some((SourceMessage(sev, sr, text), t7))
  {
    SeverityNameRoundTrip(sev);
  }

  /** A printed message is read back as itself, whatever follows it. */
  lemma MessageRoundTrip(m: SourceMessage, rest: string)
    requires MessagePrintable(m)
    ensures ReadMessage(MessageText(m) + rest) == Some((m, rest))
  {
    var name := SeverityName(m.severity);
    var t6 := " }\n" + rest;
    var t5 := Quoted(m.message) + t6;
    var t3 := OptRangeText(m.sourcerange) + t5;
    var t2 := " " + t3;
    var t1 := name + t2;
    assert MessageText(m) + rest == "{ " + t1;
    ExpectPrefix("{ ", t1);
    ReadWordLetters(name, t2);
    ExpectPrefix(" ", t3);
    OptRangeRoundTrip(m.sourcerange, t5);
    ExpectPrefix(" ", t5);
    ReadQuotedRoundTrip(m.message, t6);
    ExpectPrefix(" }\n", rest);
    ReadMessageStep("{ " + t1, t1, m.severity, t2, t3, m.sourcerange, " " + t5, t5, m.message, t6, rest);
  }

  /** Reads messages one after the other until the text no longer opens one. */
  function ReadMessages(t: string): Option<(seq<SourceMessage>, string)>
    decreases |t|
  {
    if Expect("{ ", t).None? then Some(([], t))
    else match ReadMessage(t)
      case None => None
      case Some((m, t1)) =>
        match ReadMessages(t1)
        case None => None
        case Some((ms, t2)) => Some(([m] + ms, t2))
  }

  lemma {:induction false} MessagesTextCons(m: SourceMessage, ms: seq<SourceMessage>)
    requires MessagePrintable(m) && MessagesPrintable(ms)
    ensures MessagesPrintable([m] + ms)
    ensures MessagesText([m] + ms) == MessageText(m) + MessagesText(ms)
    decreases |ms|
  {
    var all := [m] + ms;
    assert MessagesPrintable(all) by {
      forall i | 0 <= i < |all| ensures MessagePrintable(all[i]) {
        if i > 0 { assert all[i] == ms[i - 1]; }
      }
    }
    if ms != [] {
      var init := ms[..|ms| - 1];
      assert all[..|all| - 1] == [m] + init;
      assert all[|all| - 1] == ms[|ms| - 1];
      assert MessagesPrintable(init) by {
        forall i | 0 <= i < |init| ensures MessagePrintable(init[i]) {
          assert init[i] == ms[i];
        }
      }
      MessagesTextCons(m, init);
    } else {
      assert all[..0] == [];
    }
  }

  /** A message opens with `{ `, so the list reader goes on at each one. */
  lemma MessageTextOpens(m: SourceMessage, rest: string)
    requires MessagePrintable(m)
    ensures Expect("{ ", MessageText(m) + rest).Some?
  {
    var t := MessageText(m) + rest;
    assert t == "{ " + (LevelText(m.severity) + OptRangeText(m.sourcerange) + (Quoted(m.message) + " ") + "}\n" + rest);
    ExpectPrefix("{ ", LevelText(m.severity) + OptRangeText(m.sourcerange) + (Quoted(m.message) + " ") + "}\n" + rest);
  }

  /** One more message read by `ReadMessages`. */
  lemma ReadMessagesStep(t: string, m: SourceMessage, t1: string, ms: seq<SourceMessage>, t2: string)
    requires Expect("{ ", t).Some? && ReadMessage(t) == Some((m, t1)) && ReadMessages(t1) == Some((ms, t2))
    ensures ReadMessages(t) == Some(([m] + ms, t2))
  {
  }

  /** The messages block with one more message in front still reads back. */
  lemma MessagesRoundTripCons(m: SourceMessage, tail: seq<SourceMessage>, rest: string)
    requires MessagePrintable(m) && MessagesPrintable(tail)
    requires ReadMessages(MessagesText(tail) + rest) == Some((tail, rest))
    ensures MessagesPrintable([m] + tail)
    ensures ReadMessages(MessagesText([m] + tail) + rest) == Some(([m] + tail, rest))
  {
    MessagesTextCons(m, tail);
    var t1 := MessagesText(tail) + rest;
    JoinRegroup(MessageText(m), MessagesText(tail), rest);
    MessageTextOpens(m, t1);
    MessageRoundTrip(m, t1);
    ReadMessagesStep(MessageText(m) + t1, m, t1, tail, rest);
  }

  /**
   * The messages block reads back as the list written, in order, when the
   * text after it does not open a message (it is the block's closing `}`).
   */
  lemma {:induction false} MessagesRoundTrip(ms: seq<SourceMessage>, rest: string)
    requires MessagesPrintable(ms)
    requires Expect("{ ", rest).None?
    ensures ReadMessages(MessagesText(ms) + rest) == Some((ms, rest))
    decreases |ms|
  {
    if ms == [] {
      assert MessagesText(ms) + rest == rest;
    } else {
      var tail := ms[1..];
      assert MessagesPrintable(tail) by {
        forall i | 0 <= i < |tail| ensures MessagePrintable(tail[i]) {
          assert tail[i] == ms[i + 1];
        }
      }
      assert [ms[0]] + tail == ms;
      MessagesRoundTrip(tail, rest);
      MessagesRoundTripCons(ms[0], tail, rest);
    }
  }
}
