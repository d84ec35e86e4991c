/**
 * The character output that the serializer writes to (Rust's `fmt::Write`).
 *
 * A sink has a fixed capacity: a write appends the part of its text that still
 * fits and fails when not all of it fits, so a closed pipe is a sink with no room
 * left and an in-memory `String` is a sink whose capacity exceeds everything
 * written to it. Text once written is never changed.
 */
module CharOutput {

  datatype WriteError =
    | FmtError        // the sink refused a write (`fmt::Error`)
    | RawTokenError   // "Cannot write raw token"

  /** The outcome of a write (`fmt::Result`, `Void`). */
  datatype Outcome = Pass | Fail(error: WriteError)

  /** The first `n` characters of `s`, or all of `s` when it is shorter. */
  function Take(s: seq<char>, n: nat): (r: seq<char>)
    ensures |r| <= n && r <= s
    ensures |s| <= n ==> r == s
    ensures |s| > n ==> |r| == n
  {
    if |s| <= n then s else s[..n]
  }

  /** How many more characters a sink of capacity `cap` accepts once it holds `text`. */
  function RoomLeft(cap: nat, text: seq<char>): (r: nat)
    ensures |text| <= cap ==> |text| + r == cap
    ensures |text| >= cap ==> r == 0
  {
    if |text| <= cap then cap - |text| else 0
  }

  /**
   * Writing `s` to a sink of capacity `cap` that held `before` left it holding
   * `after`: `before` followed by as much of `s` as fitted, and the write
   * succeeded exactly when all of `s` fitted.
   */
  ghost predicate Wrote(cap: nat, before: seq<char>, after: seq<char>, s: seq<char>, r: Outcome)
  {
    && after == before + Take(s, RoomLeft(cap, before))
    && r == (if |s| <= RoomLeft(cap, before) then Pass else Fail(FmtError))
  }

  /** Two writes in a row, the first one complete, are one write of both texts. */
  lemma WroteThen(cap: nat, before: seq<char>, mid: seq<char>, s1: seq<char>, after: seq<char>, s2: seq<char>, r2: Outcome)
    requires Wrote(cap, before, mid, s1, Pass)
    requires Wrote(cap, mid, after, s2, r2)
    ensures Wrote(cap, before, after, s1 + s2, r2)
  {
    var room := RoomLeft(cap, before);
    assert |s1| <= room && RoomLeft(cap, mid) == room - |s1|;
    if |s1 + s2| <= room {
    } else {
      calc {
        Take(s1 + s2, room);
        (s1 + s2)[..room];
        { assert (s1 + s2)[..room] == s1 + s2[..room - |s1|]; }
        s1 + Take(s2, room - |s1|);
      }
    }
  }

  /** A failed write ends the output: whatever was to follow it is not written either. */
  lemma WroteStop(cap: nat, before: seq<char>, after: seq<char>, s: seq<char>, rest: seq<char>)
    requires Wrote(cap, before, after, s, Fail(FmtError))
    ensures Wrote(cap, before, after, s + rest, Fail(FmtError))
  {
    var room := RoomLeft(cap, before);
    assert (s + rest)[..room] == s[..room];
  }

  /** A failed write of a prefix of `full` is a failed write of `full`: what follows the failure is never written. */
  lemma WroteCut(cap: nat, before: seq<char>, after: seq<char>, s: seq<char>, full: seq<char>)
    requires Wrote(cap, before, after, s, Fail(FmtError))
    requires s <= full
    ensures Wrote(cap, before, after, full, Fail(FmtError))
  {
    var room := RoomLeft(cap, before);
    assert full[..room] == s[..room];
  }

  /**
   * One more write towards `all`: the text so far grows to `next`, and a
   * failure settles the whole of `all`.
   */
  lemma WroteNext(cap: nat, before: seq<char>, mid: seq<char>, after: seq<char>, done: seq<char>,
                  piece: seq<char>, next: seq<char>, all: seq<char>, r: Outcome)
    requires Wrote(cap, before, mid, done, Pass)
    requires Wrote(cap, mid, after, piece, r)
    requires next == done + piece && next <= all
    ensures Wrote(cap, before, after, next, r)
    ensures r.Fail? ==> Wrote(cap, before, after, all, r)
  {
    WroteThen(cap, before, mid, done, after, piece, r);
    if r.Fail? {
      WroteCut(cap, before, after, next, all);
    }
  }

  /**
   * A run of one-character writes took a sink from `before` to `after` while
   * its write counter went from `n0` to `n1`: each write that passed appended
   * its character, and when the run failed it made exactly one failing write,
   * its last.
   */
  ghost predicate WritesUpToFailure(before: seq<char>, after: seq<char>, n0: nat, n1: nat, r: Outcome)
  {
    |before| <= |after| && n1 == n0 + (|after| - |before|) + (if r.Fail? then 1 else 0)
  }

  class CharSink {
    const capacity: nat
    var text: seq<char>
    /** How many writes the sink has been asked to make. */
    ghost var calls: nat

    /** How many more characters the sink accepts. */
    function Room(): nat
      reads this
    {
      RoomLeft(capacity, text)
    }

    constructor (capacity: nat)
      ensures this.capacity == capacity && text == [] && calls == 0
    {
      this.capacity := capacity;
      text := [];
      calls := 0;
    }

    /** `write_str`. */
    method WriteStr(s: seq<char>) returns (r: Outcome)
      modifies this
      ensures Wrote(capacity, old(text), text, s, r)
      ensures calls == old(calls) + 1
    {
      calls := calls + 1;
      if |s| <= Room() {
        text := text + s;
        r := Pass;
      } else {
        text := text + Take(s, Room());
        r := Fail(FmtError);
      }
    }

    /** `write_char`. */
    method WriteChar(c: char) returns (r: Outcome)
      modifies this
      ensures Wrote(capacity, old(text), text, [c], r)
      ensures calls == old(calls) + 1
    {
      r := WriteStr([c]);
    }
  }
}
