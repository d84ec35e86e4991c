/** Facts about sequences that the text-building proofs share. */
module SeqUtil {

  /** The empty prefix and the whole sequence. */
  lemma PrefixEnds<T>(s: seq<T>)
    ensures s[..0] == [] && s[..|s|] == s
  {
  }

  /** Cutting one more item off a prefix gives the shorter prefix. */
  lemma PrefixOfPrefix<T>(s: seq<T>, i: nat)
    requires i < |s|
    ensures s[..i + 1][..i] == s[..i] && s[..i + 1][i] == s[i]
  {
  }

  /** Joining sequences does not depend on how the joins are grouped. */
  lemma JoinRegroup<T>(a: seq<T>, b: seq<T>, c: seq<T>)
    ensures (a + b) + c == a + (b + c)
  {
  }
}
