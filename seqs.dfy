/**
 * Sequence identities, each proved in a context of its own so that the proofs
 * that use them need no extensional reasoning about sequences.
 */
module SeqFacts {

  lemma ConcatAssoc<T>(x: seq<T>, y: seq<T>, z: seq<T>)
    ensures x + y + z == x + (y + z)
  {
  }

  lemma ConcatEmpty<T>(x: seq<T>)
    ensures [] + x == x && x + [] == x
  {
  }

  lemma ConcatHead<T>(x: seq<T>, y: seq<T>)
    requires x != []
    ensures (x + y)[0] == x[0] && (x + y)[1..] == x[1..] + y
  {
  }

  lemma SuffixTail<T>(s: seq<T>, from: nat)
    requires from < |s|
    ensures s[from..][0] == s[from] && s[from..][1..] == s[from + 1..]
  {
  }

  lemma AppendSteps1<T>(x: seq<T>, p: seq<T>, f: seq<T>, c: T)
    ensures x + p + f + [c] == x + (p + f + [c])
  {
  }

  lemma AppendSteps2<T>(x: seq<T>, p: seq<T>, f: seq<T>, c: T, d: T)
    ensures x + p + f + [c] + [d] == x + (p + f + [c, d])
  {
  }
}
