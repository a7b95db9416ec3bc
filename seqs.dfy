/** Small facts about sequence concatenation and slicing, stated once for any element type so
    that proofs about routes, method lists and tokens do not unfold their elements. */
module Seqs {
  lemma AppendAssoc<T>(a: seq<T>, b: seq<T>, c: seq<T>)
    ensures a + (b + c) == (a + b) + c
  {
  }

  lemma DropAppend<T>(a: seq<T>, b: seq<T>, n: int)
    requires 0 <= n <= |a|
    ensures (a + b)[n..] == a[n..] + b
    ensures (a + b)[..n] == a[..n]
  {
  }

  lemma TakeSnoc<T>(s: seq<T>, i: nat)
    requires i < |s|
    ensures s[..i + 1] == s[..i] + [s[i]]
  {
  }

  lemma SnocTake<T>(a: seq<T>, b: seq<T>, j: int)
    requires 0 <= j < |b|
    ensures a + b[..j + 1] == (a + b[..j]) + [b[j]]
  {
    assert b[..j + 1] == b[..j] + [b[j]];
  }

  lemma DropLastAppend<T>(s: seq<T>)
    requires |s| > 0
    ensures s[..|s| - 1] + [s[|s| - 1]] == s
  {
  }

  lemma InLeft<T>(a: seq<T>, b: seq<T>, x: T)
    requires x in a
    ensures x in a + b
  {
  }

  lemma InRight<T>(a: seq<T>, b: seq<T>, x: T)
    requires x in b
    ensures x in a + b
  {
  }

  lemma Regroup<T>(a: seq<T>, b: seq<T>, c: seq<T>, d: seq<T>, x: T)
    ensures a + [x] + b + [x] + c + [x] + d == a + [x] + (b + [x] + (c + [x] + d))
  {
  }

  lemma ConsPair<T>(a: T, b: T, c: T, rest: seq<T>)
    ensures [a] + ([b, c] + rest) == [a, b, c] + rest
  {
  }

  lemma AppendTakeNone<T>(a: seq<T>, b: seq<T>)
    ensures a + b[..0] == a
  {
  }

  lemma AppendTakeAll<T>(a: seq<T>, b: seq<T>)
    ensures a + b[..|b|] == a + b
  {
  }

  lemma CutMiddle<T>(a: seq<T>, m: seq<T>, r: seq<T>, k: int)
    requires 0 <= k <= |m|
    ensures (a + m) + r == (a + m[..k]) + (m[k..] + r)
  {
    assert m == m[..k] + m[k..];
  }

  lemma TakeDrop<T>(s: seq<T>, i: int)
    requires 0 <= i < |s|
    ensures s == s[..i + 1] + s[i + 1..]
    ensures s[..i + 1][..i] == s[..i]
  {
  }

  lemma ConsAppend<T>(x: T, s: seq<T>, t: seq<T>)
    ensures ([x] + s + t)[0] == x
    ensures ([x] + s + t)[1..] == s + t
  {
  }

  lemma Bracket<T>(x: T, a: seq<T>, b: seq<T>, c: seq<T>, y: T)
    ensures [x] + (a + b + c) + [y] == ([x] + a) + b + (c + [y])
  {
  }

  lemma ConsIndex<T>(x: T, rest: seq<T>)
    ensures |[x] + rest| == |rest| + 1 && ([x] + rest)[0] == x
    ensures forall i :: 0 <= i < |rest| ==> ([x] + rest)[i + 1] == rest[i]
  {
  }
}
