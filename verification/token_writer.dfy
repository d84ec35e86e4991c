/**
 * Tokens of the output protocol (src/token_writer.rs): quoted strings, in which
 * only `"` and `\` are escaped, and bare tokens, which may hold neither
 * whitespace nor a bracket.
 */
module TokenWriting {
  import opened Wrappers
  import opened CharOutput

  /* ----------------- quoted strings ----------------- */

  predicate NeedsEscape(c: char)
  {
    c == '"' || c == '\\'
  }

  /** What one character of a quoted string becomes. */
  function EscapeChar(c: char): string
  {
    if NeedsEscape(c) then ['\\', c] else [c]
  }

  /** The body of a quoted string: each character in order, `"` and `\` preceded by `\`. */
  function Escaped(s: string): string
  {
    if s == [] then [] else Escaped(s[..|s| - 1]) + EscapeChar(s[|s| - 1])
  }

  /** `write_escaped_string`: the string between double quotes, escaped. */
  function Quoted(s: string): string
  {
    "\"" + Escaped(s) + "\""
  }

  /** How many characters of `s` need an escape. */
  function CountEscapes(s: string): nat
  {
    if s == [] then 0 else (if NeedsEscape(s[0]) then 1 else 0) + CountEscapes(s[1..])
  }

  /** Decoding a body: each `\` is dropped and the character after it kept. */
  function Unescape(body: string): string
  {
    if body == [] then []
    else if body[0] == '\\' && |body| >= 2 then [body[1]] + Unescape(body[2..])
    else [body[0]] + Unescape(body[1..])
  }

  /**
   * A reader of a quoted string's body, as a consumer of the output reads it:
   * up to the first `"` that no `\` escapes; gives the decoded string and what
   * follows the closing quote.
   */
  function ReadBody(t: string): (r: Option<(string, string)>)
    ensures r.Some? ==> |r.value.1| < |t|
  {
    if t == [] then None
    else if t[0] == '"' then Some(([], t[1..]))
    else if t[0] == '\\' then
      if |t| < 2 then None
      else match ReadBody(t[2..])
        case None => None
        case Some(res) => Some(([t[1]] + res.0, res.1))
    else match ReadBody(t[1..])
      case None => None
      case Some(res) => Some(([t[0]] + res.0, res.1))
  }

  function ReadQuoted(t: string): (r: Option<(string, string)>)
    ensures r.Some? ==> |r.value.1| < |t|
  {
    if t != [] && t[0] == '"' then ReadBody(t[1..]) else None
  }

  /** Escaping distributes over concatenation: each character is escaped on its own. */
  lemma {:induction false} EscapedAppend(a: string, b: string)
    ensures Escaped(a + b) == Escaped(a) + Escaped(b)
    decreases |b|
  {
    if b == [] {
      assert a + b == a;
    } else {
      var b' := b[..|b| - 1];
      assert (a + b)[..|a + b| - 1] == a + b';
      EscapedAppend(a, b');
    }
  }

  /** The escaped body, read from the front. */
  lemma EscapedCons(s: string)
    requires s != []
    ensures Escaped(s) == EscapeChar(s[0]) + Escaped(s[1..])
  {
    assert s == [s[0]] + s[1..];
    EscapedAppend([s[0]], s[1..]);
    assert Escaped([s[0]]) == Escaped([]) + EscapeChar(s[0]);
  }

  /** Characters that need no escape are copied unchanged. */
  lemma {:induction false} EscapedPlain(s: string)
    requires forall i :: 0 <= i < |s| ==> !NeedsEscape(s[i])
    ensures Escaped(s) == s
    decreases |s|
  {
    if s != [] {
      EscapedPlain(s[..|s| - 1]);
      assert s == s[..|s| - 1] + [s[|s| - 1]];
    }
  }

  /** The quoted form is the string, the two quotes and one backslash per `"` or `\`. */
  lemma {:induction false} QuotedLength(s: string)
    ensures |Quoted(s)| == |s| + 2 + CountEscapes(s)
  {
    EscapedLength(s);
  }

  lemma {:induction false} EscapedLength(s: string)
    ensures |Escaped(s)| == |s| + CountEscapes(s)
    decreases |s|
  {
    if s != [] {
      EscapedCons(s);
      EscapedLength(s[1..]);
    }
  }

  /** Dropping each escaping backslash from the body gives back the string. */
  lemma {:induction false} UnescapeEscaped(s: string)
    ensures Unescape(Escaped(s)) == s
    decreases |s|
  {
    if s != [] {
      EscapedCons(s);
      UnescapeEscaped(s[1..]);
      var e := Escaped(s[1..]);
      if NeedsEscape(s[0]) {
        assert (['\\', s[0]] + e)[2..] == e;
      } else {
        assert ([s[0]] + e)[1..] == e;
      }
    }
  }

  /**
   * A quoted string is self-delimiting: a reader finds its end without help
   * and recovers the string, whatever text follows it.
   */
  lemma {:induction false} ReadQuotedRoundTrip(s: string, rest: string)
    ensures ReadQuoted(Quoted(s) + rest) == Some((s, rest))
  {
    ReadBodyEscaped(s, rest);
    assert (Quoted(s) + rest)[1..] == Escaped(s) + "\"" + rest;
  }

  /** Reading one plain or escaped character off the front of a body. */
  lemma ReadBodyEscapeChar(c: char, t: string)
    ensures ReadBody(EscapeChar(c) + t) == match ReadBody(t)
      case None => None
      case Some(res) => Some(([c] + res.0, res.1))
  {
    if NeedsEscape(c) {
      assert (['\\', c] + t)[2..] == t;
    } else {
      assert ([c] + t)[1..] == t;
    }
  }

  lemma {:induction false} ReadBodyEscaped(s: string, rest: string)
    ensures ReadBody(Escaped(s) + "\"" + rest) == Some((s, rest))
    decreases |s|
  {
    if s == [] {
      assert Escaped(s) + "\"" + rest == ['"'] + rest;
    } else {
      var t := Escaped(s[1..]) + "\"" + rest;
      EscapedCons(s);
      assert Escaped(s) + "\"" + rest == EscapeChar(s[0]) + t;
      ReadBodyEscaped(s[1..], rest);
      ReadBodyEscapeChar(s[0], t);
      assert [s[0]] + s[1..] == s;
    }
  }

  /** Escaping one more character at the end. */
  lemma EscapedSnoc(s: string, c: char)
    ensures Escaped(s + [c]) == Escaped(s) + EscapeChar(c)
  {
    assert (s + [c])[..|s|] == s;
  }

  /** The expected outputs of the escaping tests: the empty string, a lone quote, a lone backslash. */
  lemma QuotedExamples()
    ensures Quoted("") == "\"\""
    ensures Quoted("\"") == "\"\\\"\""
    ensures Quoted("\\") == "\"\\\\\""
  {
    EscapedSnoc("", '"');
    EscapedSnoc("", '\\');
  }

  /** The expected output of the escaping test `abc`: nothing to escape. */
  lemma QuotedPlainExample()
    ensures Quoted("abc") == "\"abc\""
  {
    EscapedPlain("abc");
  }

  /** The expected output of the escaping test `-"-`. */
  lemma QuotedInnerQuoteExample()
    ensures Quoted("-\"-") == "\"-\\\"-\""
  {
    calc {
      Escaped("-\"-");
      { assert "-\"-" == "-\"" + ['-']; EscapedSnoc("-\"", '-'); }
      Escaped("-\"") + "-";
      { assert "-\"" == "-" + ['"']; EscapedSnoc("-", '"'); }
      Escaped("-") + "\\\"" + "-";
      { EscapedPlain("-"); }
      "-\\\"-";
    }
  }

  /** The expected output of the escaping test `---\`. */
  lemma QuotedTrailingBackslashExample()
    ensures Quoted("---\\") == "\"---\\\\\""
  {
    calc {
      Escaped("---\\");
      { assert "---\\" == "---" + ['\\']; EscapedSnoc("---", '\\'); }
      Escaped("---") + "\\\\";
      { EscapedPlain("---"); }
      "---\\\\";
    }
  }

  /** The expected output of the escaping test with a backslash followed by a quote. */
  lemma QuotedMixedExample()
    ensures Quoted("--\\\"-") == "\"--\\\\\\\"-\""
  {
    calc {
      Escaped("--\\\"-");
      { assert "--\\\"-" == "--\\\"" + ['-']; EscapedSnoc("--\\\"", '-'); }
      Escaped("--\\\"") + "-";
      { assert "--\\\"" == "--\\" + ['"']; EscapedSnoc("--\\", '"'); }
      Escaped("--\\") + "\\\"" + "-";
      { assert "--\\" == "--" + ['\\']; EscapedSnoc("--", '\\'); }
      Escaped("--") + "\\\\" + "\\\"" + "-";
      { EscapedPlain("--"); }
      "--\\\\\\\"-";
    }
  }

  /* ----------------- bare tokens ----------------- */

  /** Rust's `char::is_whitespace`: the Unicode White_Space property. */
  predicate IsWhitespace(c: char)
  {
    var n := c as int;
    (0x09 <= n <= 0x0D) || n == 0x20 || n == 0x85 || n == 0xA0 || n == 0x1680
    || (0x2000 <= n <= 0x200A) || n == 0x2028 || n == 0x2029 || n == 0x202F
    || n == 0x205F || n == 0x3000
  }

  predicate IsBracket(c: char)
  {
    c == '{' || c == '}' || c == '(' || c == ')' || c == '[' || c == ']'
  }

  /** A string `writeRawToken` accepts: no whitespace and no bracket in it. */
  predicate IsRawToken(s: string)
  {
    forall i :: 0 <= i < |s| ==> !IsWhitespace(s[i]) && !IsBracket(s[i])
  }

  /** A word of ASCII letters is a bare token. */
  lemma LetterWordIsRawToken(s: string)
    requires forall i :: 0 <= i < |s| ==> ('A' <= s[i] <= 'Z') || ('a' <= s[i] <= 'z')
    ensures IsRawToken(s)
  {
  }

  /** The bare-token tests: `blah` is accepted; `bl ah` and `bl{ah` are refused. */
  lemma RawTokenExamples()
    ensures IsRawToken("blah")
    ensures !IsRawToken("bl ah") && !IsRawToken("bl{ah")
  {
    LetterWordIsRawToken("blah");
    assert IsWhitespace("bl ah"[2]);
    assert IsBracket("bl{ah"[2]);
  }

  /* ----------------- writing ----------------- */

  /** Where the loop of `write_escaped_string` stands before character `i`. */
  lemma QuotedAt(s: string, i: nat)
    requires i < |s|
    ensures Escaped(s[..i + 1]) == Escaped(s[..i]) + EscapeChar(s[i])
    ensures Quoted(s) == "\"" + Escaped(s[..i + 1]) + Escaped(s[i + 1..]) + "\""
  {
    assert s[..i + 1] == s[..i] + [s[i]];
    EscapedSnoc(s[..i], s[i]);
    assert s == s[..i + 1] + s[i + 1..];
    EscapedAppend(s[..i + 1], s[i + 1..]);
  }

  /** One pass of the loop of `write_escaped_string`: a backslash first if the character needs one. */
  method WriteEscapedChar(ch: char, out: CharSink) returns (r: Outcome)
    modifies out
    ensures Wrote(out.capacity, old(out.text), out.text, EscapeChar(ch), r)
    ensures WritesUpToFailure(old(out.text), out.text, old(out.calls), out.calls, r)
  {
    ghost var before, cap := out.text, out.capacity;
    if ch == '"' || ch == '\\' {
      r := out.WriteChar('\\');
      if r.Fail? {
        WroteStop(cap, before, out.text, "\\", [ch]);
        return;
      }
      ghost var mid := out.text;
      r := out.WriteChar(ch);
      WroteThen(cap, before, mid, "\\", out.text, [ch], r);
    } else {
      r := out.WriteChar(ch);
    }
  }

  /** `write_escaped_string`: writes `Quoted(s)` character by character, stopping at the first failed write. */
  method WriteEscapedString(s: string, out: CharSink) returns (r: Outcome)
    modifies out
    ensures Wrote(out.capacity, old(out.text), out.text, Quoted(s), r)
    ensures WritesUpToFailure(old(out.text), out.text, old(out.calls), out.calls, r)
  {
    ghost var before, cap, calls0 := out.text, out.capacity, out.calls;
    r := out.WriteChar('"');
    if r.Fail? {
      WroteStop(cap, before, out.text, "\"", Escaped(s) + "\"");
      return;
    }
    for i := 0 to |s|
      invariant Wrote(cap, before, out.text, "\"" + Escaped(s[..i]), Pass)
      invariant WritesUpToFailure(before, out.text, calls0, out.calls, Pass)
    {
      ghost var mid := out.text;
      QuotedAt(s, i);
      r := WriteEscapedChar(s[i], out);
      WroteThen(cap, before, mid, "\"" + Escaped(s[..i]), out.text, EscapeChar(s[i]), r);
      assert "\"" + Escaped(s[..i]) + EscapeChar(s[i]) == "\"" + Escaped(s[..i + 1]);
      if r.Fail? {
        WroteStop(cap, before, out.text, "\"" + Escaped(s[..i + 1]), Escaped(s[i + 1..]) + "\"");
        assert "\"" + Escaped(s[..i + 1]) + (Escaped(s[i + 1..]) + "\"") == Quoted(s);
        return;
      }
    }
    assert s[..|s|] == s;
    ghost var mid := out.text;
    r := out.WriteChar('"');
    WroteThen(cap, before, mid, "\"" + Escaped(s), out.text, "\"", r);
  }

  /** `TokenWriter`: writes protocol tokens to a shared character output. */
  class TokenWriter {
    const out: CharSink

    constructor (out: CharSink)
      ensures this.out == out
    {
      this.out := out;
    }

    /** `writeRaw` / `write_raw`: the text as it is. */
    method WriteRaw(s: string) returns (r: Outcome)
      modifies out
      ensures Wrote(out.capacity, old(out.text), out.text, s, r)
    {
      r := out.WriteStr(s);
    }

    /** `writeStringToken` / `write_string_token`: the quoted string, then one space. */
    method WriteStringToken(s: string) returns (r: Outcome)
      modifies out
      ensures Wrote(out.capacity, old(out.text), out.text, Quoted(s) + " ", r)
    {
      ghost var before, cap := out.text, out.capacity;
      r := WriteEscapedString(s, out);
      if r.Fail? {
        WroteStop(cap, before, out.text, Quoted(s), " ");
        return;
      }
      ghost var mid := out.text;
      r := out.WriteChar(' ');
      WroteThen(cap, before, mid, Quoted(s), out.text, " ", r);
    }

    /**
     * `writeRawToken` / `write_raw_token`: rejects a token holding whitespace or
     * a bracket without writing anything; otherwise the token, then one space.
     */
    method WriteRawToken(s: string) returns (r: Outcome)
      modifies out
      ensures !IsRawToken(s) ==> r == Fail(RawTokenError) && out.text == old(out.text)
      ensures IsRawToken(s) ==> Wrote(out.capacity, old(out.text), out.text, s + " ", r)
    {
      for i := 0 to |s|
        invariant forall j :: 0 <= j < i ==> !IsWhitespace(s[j]) && !IsBracket(s[j])
      {
        var ch := s[i];
        if IsWhitespace(ch) || IsBracket(ch) {
          return Fail(RawTokenError);
        }
      }
      ghost var before, cap := out.text, out.capacity;
      r := out.WriteStr(s);
      if r.Fail? {
        WroteStop(cap, before, out.text, s, " ");
        return;
      }
      ghost var mid := out.text;
      r := out.WriteChar(' ');
      WroteThen(cap, before, mid, s, out.text, " ", r);
    }
  }
}
