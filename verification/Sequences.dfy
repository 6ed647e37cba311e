// What the proofs over sequences share.
module Sequences {
  lemma SlicesJoin<T>(s: seq<T>, b: nat, c: nat)
    requires b <= c <= |s|
    ensures s[b..c] + s[c..] == s[b..]
  {
  }

  lemma Associative<T>(a: seq<T>, b: seq<T>, c: seq<T>)
    ensures a + b + c == a + (b + c)
  {
  }
}
