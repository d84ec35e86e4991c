/** Writing a character repeatedly (rust_parse_describe/src/util/string.rs). */
module StringUtil {
  import opened CharOutput

  /** `n` copies of `ch`. */
  function Repeat(ch: char, n: nat): (r: seq<char>)
    ensures |r| == n
    ensures forall i :: 0 <= i < n ==> r[i] == ch
  {
    if n == 0 then [] else Repeat(ch, n - 1) + [ch]
  }

  /**
   * `writeNTimes`: writes `ch` `count` times, one character at a time, and
   * stops at the first write that fails, returning its error.
   */
  method WriteNTimes(out: CharSink, ch: char, count: nat) returns (r: Outcome)
    modifies out
    ensures Wrote(out.capacity, old(out.text), out.text, Repeat(ch, count), r)
    ensures WritesUpToFailure(old(out.text), out.text, old(out.calls), out.calls, r)
  {
    ghost var before, cap, calls0 := out.text, out.capacity, out.calls;
    for i := 0 to count
      invariant out.text == before + Repeat(ch, i)
      invariant i <= RoomLeft(cap, before)
      invariant out.calls == calls0 + i
    {
      r := out.WriteChar(ch);
      if r.Fail? {
        WroteThen(cap, before, before + Repeat(ch, i), Repeat(ch, i), out.text, [ch], r);
        WroteStop(cap, before, out.text, Repeat(ch, i + 1), Repeat(ch, count)[i + 1..]);
        assert Repeat(ch, i + 1) + Repeat(ch, count)[i + 1..] == Repeat(ch, count);
        return;
      }
    }
    r := Pass;
  }
}
