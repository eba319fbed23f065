/**
 * Small facts about sequences, stated once for any element type so that the
 * proofs about strings and records can cite them instead of re-deriving them.
 */
module SeqFacts {
  lemma AppendAssoc<T>(a: seq<T>, b: seq<T>, c: seq<T>)
    ensures a + (b + c) == (a + b) + c
  {
  }

  lemma PrefixAll<T>(s: seq<T>)
    ensures s[..|s|] == s
  {
  }

  lemma ConsIndex<T>(x: T, xs: seq<T>)
    ensures ([x] + xs)[0] == x
    ensures ([x] + xs)[1..] == xs
    ensures forall k :: 1 <= k <= |xs| ==> ([x] + xs)[k] == xs[k - 1]
  {
  }

  lemma NotInConcat<T>(x: T, a: seq<T>, b: seq<T>, c: seq<T>)
    requires x !in a && x !in b && x !in c
    ensures x !in a + b + c
  {
  }

  lemma SliceOfTail<T>(s: seq<T>, i: nat, j: nat)
    requires i <= j <= |s| - 1
    ensures s[1..][i..j] == s[i + 1..j + 1]
  {
  }

  lemma ConsTail<T>(s: seq<T>)
    requires s != []
    ensures s == [s[0]] + s[1..]
  {
  }

  /** The parts of `a + pat + b` around `pat`, and its tail when `a` is not empty. */
  lemma AroundPattern<T>(a: seq<T>, pat: seq<T>, b: seq<T>)
    ensures a == [] ==> (a + pat + b)[..|pat|] == pat && (a + pat + b)[|pat|..] == b
    ensures a != [] ==> (a + pat + b)[0] == a[0] && (a + pat + b)[1..] == a[1..] + pat + b
  {
  }

  lemma ConsAssoc<T>(a: seq<T>, b: seq<T>, c: seq<T>)
    requires a != []
    ensures [a[0]] + (a[1..] + b + c) == a + b + c
  {
  }

  lemma EmptyPrefix<T>(s: seq<T>)
    ensures [] + s == s
  {
  }

  lemma EmptySuffix<T>(s: seq<T>)
    ensures s + [] == s
  {
  }

  lemma ConsRegroup<T>(x: T, a: seq<T>, g: seq<T>, c: seq<T>)
    ensures ([x] + a) + g + c == [x] + (a + g + c)
  {
  }

  lemma ConsSplit<T>(x: seq<T>, t: seq<T>)
    requires x != []
    ensures (x + t)[0] == x[0] && (x + t)[1..] == x[1..] + t
  {
  }

  lemma ConsJoin<T>(a: seq<T>, c: seq<T>)
    requires a != []
    ensures [a[0]] + (a[1..] + c) == a + c
  {
  }
}
