/** Lists built by appending one block after another, as the mesh builders
    do with rows of vertices, strips of triangles and rings of a stem. */
module Blocks {

  /** The blocks, one after the other. */
  function Concat<T>(blocks: seq<seq<T>>): seq<T> {
    if blocks == [] then [] else Concat(blocks[..|blocks| - 1]) + blocks[|blocks| - 1]
  }

  /** Where block i starts when every block holds l elements: i * l,
      written as a sum so that offsets compare without multiplying. */
  function BlockStart(i: nat, l: int): int {
    if i == 0 then 0 else BlockStart(i - 1, l) + l
  }

  lemma MulSucc(a: int, l: int)
    ensures (a + 1) * l == a * l + l
  {
  }

  lemma MulMono(a: int, b: int, e: int)
    requires a <= b && e >= 0
    ensures a * e <= b * e
  {
  }

  lemma {:induction false} BlockStartIsProduct(i: nat, l: int)
    ensures BlockStart(i, l) == i * l
  {
    if i > 0 {
      BlockStartIsProduct(i - 1, l);
      MulSucc(i - 1, l);
    }
  }

  lemma {:induction false} BlockStartAdd(a: nat, b: nat, l: int)
    ensures BlockStart(a + b, l) == BlockStart(a, l) + BlockStart(b, l)
  {
    if b > 0 {
      BlockStartAdd(a, b - 1, l);
    }
  }

  lemma {:induction false} BlockStartNonNegative(i: nat, l: int)
    requires l >= 0
    ensures BlockStart(i, l) >= 0
  {
    if i > 0 {
      BlockStartNonNegative(i - 1, l);
    }
  }

  /** Appending block i to the first i blocks gives the first i + 1. */
  lemma ConcatStep<T>(blocks: seq<seq<T>>, i: int)
    requires 0 <= i < |blocks|
    ensures Concat(blocks[..i + 1]) == Concat(blocks[..i]) + blocks[i]
  {
    assert blocks[..i + 1][..i] == blocks[..i];
  }

  lemma ConcatAll<T>(blocks: seq<seq<T>>)
    ensures Concat(blocks[..|blocks|]) == Concat(blocks)
  {
    assert blocks[..|blocks|] == blocks;
  }

  lemma ConcatUpTo<T>(blocks: seq<seq<T>>, n: int)
    requires n == |blocks|
    ensures Concat(blocks[..n]) == Concat(blocks)
  {
    assert blocks[..n] == blocks;
  }

  /** With every block of length l, the whole has length BlockStart(n, l). */
  lemma {:induction false} ConcatLength<T>(blocks: seq<seq<T>>, l: int)
    requires forall k :: 0 <= k < |blocks| ==> |blocks[k]| == l
    ensures |Concat(blocks)| == BlockStart(|blocks|, l)
  {
    if blocks != [] {
      ConcatLength(blocks[..|blocks| - 1], l);
    }
  }

  /** With a first block of length a and every later one of length l, the
      first m blocks have length a + BlockStart(m - 1, l). */
  lemma {:induction false} ConcatLengthAfterFirst<T>(blocks: seq<seq<T>>, m: int, a: int, l: int)
    requires 1 <= m <= |blocks|
    requires |blocks[0]| == a
    requires forall k :: 1 <= k < m ==> |blocks[k]| == l
    ensures |Concat(blocks[..m])| == a + BlockStart(m - 1, l)
  {
    ConcatStep(blocks, m - 1);
    if m == 1 {
      assert blocks[..0] == [];
    } else {
      ConcatLengthAfterFirst(blocks, m - 1, a, l);
    }
  }

  /** With a first block of length a, a last of length b and every one
      between of length l, the whole has length a + BlockStart(n - 2, l) + b. */
  lemma ConcatLengthEnds<T>(blocks: seq<seq<T>>, n: int, a: int, l: int, b: int)
    requires |blocks| == n >= 2
    requires |blocks[0]| == a && |blocks[n - 1]| == b
    requires forall k :: 1 <= k < n - 1 ==> |blocks[k]| == l
    ensures |Concat(blocks)| == a + BlockStart(n - 2, l) + b
  {
    ConcatLengthAfterFirst(blocks, |blocks| - 1, a, l);
    assert blocks[..|blocks|] == blocks;
    ConcatStep(blocks, |blocks| - 1);
  }

  /** With every block of length l, element q of block i sits at
      BlockStart(i, l) + q. */
  lemma {:induction false} ConcatIndex<T>(blocks: seq<seq<T>>, l: int, i: int, q: int)
    requires forall k :: 0 <= k < |blocks| ==> |blocks[k]| == l
    requires 0 <= i < |blocks| && 0 <= q < l
    ensures |Concat(blocks)| == BlockStart(|blocks|, l)
    ensures 0 <= BlockStart(i, l) && BlockStart(i, l) + q < |Concat(blocks)|
    ensures Concat(blocks)[BlockStart(i, l) + q] == blocks[i][q]
  {
    var n := |blocks|;
    var init := blocks[..n - 1];
    ConcatLength(blocks, l);
    ConcatLength(init, l);
    BlockStartNonNegative(i, l);
    if i < n - 1 {
      ConcatIndex(init, l, i, q);
    }
  }

  /** Every element of the whole comes from some block. */
  lemma {:induction false} ConcatMember<T>(blocks: seq<seq<T>>, k: int) returns (i: int, q: int)
    requires 0 <= k < |Concat(blocks)|
    ensures 0 <= i < |blocks| && 0 <= q < |blocks[i]|
    ensures Concat(blocks)[k] == blocks[i][q]
  {
    var n := |blocks|;
    var init := blocks[..n - 1];
    if k < |Concat(init)| {
      i, q := ConcatMember(init, k);
    } else {
      i, q := n - 1, k - |Concat(init)|;
    }
  }

  /** The first m blocks give a prefix of the whole. */
  lemma {:induction false} ConcatPrefix<T>(blocks: seq<seq<T>>, m: int)
    requires 0 <= m <= |blocks|
    ensures Concat(blocks[..m]) <= Concat(blocks)
    decreases |blocks|
  {
    if m < |blocks| {
      var init := blocks[..|blocks| - 1];
      assert blocks[..m] == init[..m];
      ConcatPrefix(init, m);
    } else {
      assert blocks[..m] == blocks;
    }
  }

  /** Two block lists that agree but for a tail on the last block. */
  lemma ConcatLastTail<T>(a: seq<seq<T>>, b: seq<seq<T>>, tail: seq<T>)
    requires |a| == |b| >= 1
    requires forall i :: 0 <= i < |a| - 1 ==> a[i] == b[i]
    requires a[|a| - 1] == b[|b| - 1] + tail
    ensures Concat(a) == Concat(b) + tail
  {
    assert a[..|a| - 1] == b[..|b| - 1];
  }

  /** Every element of s lies in [lo, hi). */
  ghost predicate AllIn(s: seq<int>, lo: int, hi: int) {
    forall k :: 0 <= k < |s| ==> lo <= s[k] < hi
  }

  lemma {:induction false} ConcatAllIn(blocks: seq<seq<int>>, lo: int, hi: int)
    requires forall i :: 0 <= i < |blocks| ==> AllIn(blocks[i], lo, hi)
    ensures AllIn(Concat(blocks), lo, hi)
  {
    if blocks != [] {
      ConcatAllIn(blocks[..|blocks| - 1], lo, hi);
    }
  }

  lemma AllInAppend(a: seq<int>, b: seq<int>, lo: int, hi: int)
    requires AllIn(a, lo, hi) && AllIn(b, lo, hi)
    ensures AllIn(a + b, lo, hi)
  {
    assert forall k :: 0 <= k < |b| ==> (a + b)[|a| + k] == b[k];
  }

  /** One more block appended to a list that holds a head and the first i
      blocks. */
  lemma AppendBlock<T>(head: seq<T>, blocks: seq<seq<T>>, i: int, acc: seq<T>, block: seq<T>, acc': seq<T>)
    requires 0 <= i < |blocks|
    requires acc == head + Concat(blocks[..i])
    requires block == blocks[i]
    requires acc' == acc + block
    ensures acc' == head + Concat(blocks[..i + 1])
  {
    ConcatStep(blocks, i);
  }

  /** One more element appended to a list that holds a head and the first
      i elements of s. */
  lemma AppendElement<T>(head: seq<T>, s: seq<T>, i: int, acc: seq<T>, x: T, acc': seq<T>)
    requires 0 <= i < |s|
    requires acc == head + s[..i]
    requires x == s[i]
    requires acc' == acc + [x]
    ensures acc' == head + s[..i + 1]
  {
    assert s[..i + 1] == s[..i] + [s[i]];
  }

  /** One more element appended to the first i elements of s. */
  lemma TakeAppend<T>(s: seq<T>, i: int, acc: seq<T>, x: T, acc': seq<T>)
    requires 0 <= i < |s|
    requires acc == s[..i] && x == s[i] && acc' == acc + [x]
    ensures acc' == s[..i + 1]
  {
    assert s[..i + 1] == s[..i] + [s[i]];
  }

  lemma Regroup<T>(a: seq<T>, b: seq<T>, c: seq<T>, r: seq<T>)
    requires r == (a + b) + c
    ensures r == a + (b + c)
  {
  }

  lemma EmptyLeft<T>(a: seq<T>)
    ensures [] + a == a
  {
  }
}
