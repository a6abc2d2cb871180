/**
 * Generic facts about sequences built block by block, shared by the canvas
 * and SVG models of the elevation drawing.
 */
module Sequences {
  /** The blocks of `xs`, laid end to end in order. */
  function FlatMap<T, U>(xs: seq<T>, block: T -> seq<U>): seq<U> {
    if xs == [] then [] else FlatMap(xs[..|xs| - 1], block) + block(xs[|xs| - 1])
  }

  /** One more element appends its block. */
  lemma FlatMapStep<T, U>(xs: seq<T>, block: T -> seq<U>, i: int)
    requires 0 <= i < |xs|
    ensures FlatMap(xs[..i + 1], block) == FlatMap(xs[..i], block) + block(xs[i])
  {
    assert xs[..i + 1][..i] == xs[..i];
  }

  /** Where each of the five pieces of `p + a + m + b + r` sits in the whole. */
  lemma Pieces<T>(p: seq<T>, a: seq<T>, m: seq<T>, b: seq<T>, r: seq<T>)
    ensures var s, i, j := p + a + m + b + r, |p| + |a|, |p| + |a| + |m|;
            s[..|p|] == p && s[|p|..i] == a && s[i..j] == m && s[j..j + |b|] == b && s[j + |b|..] == r
            && (forall t :: |p| <= t < i ==> s[t] == a[t - |p|])
            && (forall t :: i <= t < j ==> s[t] == m[t - i])
            && (forall t :: j <= t < j + |b| ==> s[t] == b[t - j])
  {
  }

  /** Appending four elements one at a time builds the four-element display. */
  lemma SnocFour<T>(a: T, b: T, c: T, d: T)
    ensures [] + [a] == [a] && [a] + [b] == [a, b] && [a, b] + [c] == [a, b, c] && [a, b, c] + [d] == [a, b, c, d]
  {
  }

  /** A non-empty sequence is its front followed by its last element. */
  lemma FrontAndLast<T>(s: seq<T>)
    requires |s| > 0
    ensures s[..|s| - 1] + [s[|s| - 1]] == s
  {
  }

  /** Appending two blocks one after the other appends their concatenation. */
  lemma AppendThree<T>(l: seq<T>, a: seq<T>, b: seq<T>)
    ensures l + a + b == l + (a + b)
  {
  }

  /** Appending five blocks one after the other appends their concatenation. */
  lemma AppendFive<T>(l: seq<T>, a: seq<T>, b: seq<T>, c: seq<T>, d: seq<T>, e: seq<T>)
    ensures l + a + b + c + d + e == l + (a + b + c + d + e)
  {
  }

  /** Blocks of `k` elements each make `k` elements per item. */
  lemma {:induction false} FlatMapLength<T, U>(xs: seq<T>, block: T -> seq<U>, k: nat)
    requires forall x :: |block(x)| == k
    ensures |FlatMap(xs, block)| == k * |xs|
  {
    if xs != [] {
      var n := |xs| - 1;
      FlatMapLength(xs[..n], block, k);
      assert |block(xs[n])| == k;
      MulSucc(k, n);
    }
  }

  /** With blocks of `k` elements, item `i` owns elements `k i` to `k i + k - 1`. */
  lemma {:induction false} FlatMapAt<T, U>(xs: seq<T>, block: T -> seq<U>, k: nat, i: int)
    requires forall x :: |block(x)| == k
    requires 0 <= i < |xs|
    ensures |FlatMap(xs, block)| == k * |xs|
    ensures FlatMap(xs, block)[k * i .. k * i + k] == block(xs[i])
  {
    var n := |xs| - 1;
    var front := FlatMap(xs[..n], block);
    var last := block(xs[n]);
    assert FlatMap(xs, block) == front + last;
    FlatMapLength(xs, block, k);
    FlatMapLength(xs[..n], block, k);
    assert |front| == k * n;
    MulSucc(k, i);
    if i < n {
      FlatMapAt(xs[..n], block, k, i);
      assert xs[..n][i] == xs[i];
      MulMonotone(k, i + 1, n);
      SliceOfFront(front, last, k * i, k * i + k);
    } else {
      assert |last| == k;
      SliceOfBack(front, last);
    }
  }

  /** Mapping a concatenation concatenates the mapped parts. */
  lemma {:induction false} FlatMapAppend<T, U>(a: seq<T>, b: seq<T>, block: T -> seq<U>)
    ensures FlatMap(a + b, block) == FlatMap(a, block) + FlatMap(b, block)
  {
    if b == [] {
      assert a + b == a;
    } else {
      var n := |b| - 1;
      assert (a + b)[..|a + b| - 1] == a + b[..n];
      assert (a + b)[|a + b| - 1] == b[n];
      FlatMapAppend(a, b[..n], block);
      calc {
        FlatMap(a + b, block);
        FlatMap(a + b[..n], block) + block(b[n]);
        FlatMap(a, block) + FlatMap(b[..n], block) + block(b[n]);
        FlatMap(a, block) + (FlatMap(b[..n], block) + block(b[n]));
        FlatMap(a, block) + FlatMap(b, block);
      }
    }
  }

  lemma MulSucc(k: nat, n: nat)
    ensures k * (n + 1) == k * n + k
  {
  }

  lemma MulMonotone(k: nat, a: nat, b: nat)
    requires a <= b
    ensures k * a <= k * b
  {
  }

  /** `a + b + c` starts with `a` and ends with `c`. */
  lemma Framed<T>(a: seq<T>, b: seq<T>, c: seq<T>)
    ensures |a| + |c| <= |a + b + c|
    ensures (a + b + c)[..|a|] == a
    ensures (a + b + c)[|a + b + c| - |c|..] == c
  {
    assert (a + b + c)[..|a|] == a;
    assert (a + b + c)[|a + b + c| - |c|..] == c;
  }

  /** Two neighbouring elements of the middle part of `p + m + r`, read in the whole. */
  lemma PairInMiddle<T>(p: seq<T>, m: seq<T>, r: seq<T>, t: nat)
    requires t + 1 < |m|
    ensures |p| + t + 1 < |p + m + r|
    ensures (p + m + r)[|p| + t] == m[t] && (p + m + r)[|p| + t + 1] == m[t + 1]
  {
  }

  lemma SliceOfFront<T>(a: seq<T>, b: seq<T>, lo: int, hi: int)
    requires 0 <= lo <= hi <= |a|
    ensures (a + b)[lo..hi] == a[lo..hi]
  {
  }

  lemma SliceOfBack<T>(a: seq<T>, b: seq<T>)
    ensures (a + b)[|a|..|a| + |b|] == b
  {
  }
}
