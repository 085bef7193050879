/**
 * Contiguous sub-batches: splitIndexedValues and splitStrings of
 * lambda/skyflow.go have the same body over different element types, so one
 * generic Split models both.
 */
module Chunking {

  /** Concatenation of a sequence of batches, in order. */
  function Concat<T>(bs: seq<seq<T>>): (s: seq<T>)
  {
    if |bs| == 0 then [] else Concat(bs[..|bs| - 1]) + bs[|bs| - 1]
  }

  lemma {:induction false} ConcatPrepend<T>(b: seq<T>, bs: seq<seq<T>>)
    ensures Concat([b] + bs) == b + Concat(bs)
    decreases |bs|
  {
    if |bs| == 0 {
      assert ([b] + bs)[..0] == [];
    } else {
      var n := |bs|;
      assert ([b] + bs)[..n] == [b] + bs[..n - 1];
      ConcatPrepend(b, bs[..n - 1]);
    }
  }

  /** Extending the batches by one appends that batch to the concatenation. */
  lemma ConcatSnoc<T>(bs: seq<seq<T>>, k: nat)
    requires k < |bs|
    ensures Concat(bs[..k + 1]) == Concat(bs[..k]) + bs[k]
  {
    assert bs[..k + 1][..k] == bs[..k];
  }

  /** Element j of batch k sits at offset |Concat(bs[..k])| + j of the concatenation. */
  lemma {:induction false} ConcatAt<T>(bs: seq<seq<T>>, k: nat, j: nat)
    requires k < |bs| && j < |bs[k]|
    ensures |Concat(bs[..k])| + j < |Concat(bs)|
    ensures Concat(bs)[|Concat(bs[..k])| + j] == bs[k][j]
    decreases |bs|
  {
    var n := |bs|;
    if k == n - 1 {
      assert bs[..n - 1] == bs[..k];
    } else {
      ConcatAt(bs[..n - 1], k, j);
      assert bs[..n - 1][..k] == bs[..k];
    }
  }

  /** Every offset of the concatenation is element j of some batch k. */
  lemma {:induction false} ConcatIndex<T>(bs: seq<seq<T>>, p: nat) returns (k: nat, j: nat)
    requires p < |Concat(bs)|
    ensures k < |bs| && j < |bs[k]| && p == |Concat(bs[..k])| + j
    decreases |bs|
  {
    var n := |bs| - 1;
    var front := Concat(bs[..n]);
    if p < |front| {
      k, j := ConcatIndex(bs[..n], p);
      assert bs[..n][..k] == bs[..k];
    } else {
      k, j := n, p - |front|;
    }
  }

  /** Every element of s is element j of some batch k of Chunks(s, size). */
  lemma ChunkOf<T>(s: seq<T>, size: nat, x: T) returns (k: nat, j: nat)
    requires size > 0 && x in s
    ensures k < |Chunks(s, size)| && j < |Chunks(s, size)[k]| && Chunks(s, size)[k][j] == x
  {
    var bs := Chunks(s, size);
    ChunksConcat(s, size);
    var p :| 0 <= p < |s| && s[p] == x;
    k, j := ConcatIndex(bs, p);
    ConcatAt(bs, k, j);
  }

  /** Batches of equal sizes concatenate to sequences of equal length. */
  lemma {:induction false} ConcatSameShape<A, B>(xs: seq<seq<A>>, ys: seq<seq<B>>)
    requires |xs| == |ys| && forall k | 0 <= k < |xs| :: |xs[k]| == |ys[k]|
    ensures |Concat(xs)| == |Concat(ys)|
    decreases |xs|
  {
    if |xs| > 0 {
      var n := |xs| - 1;
      ConcatSameShape(xs[..n], ys[..n]);
    }
  }

  /** The earlier batches never concatenate to more than all of them. */
  lemma {:induction false} ConcatPrefix<T>(bs: seq<seq<T>>, m: nat)
    requires m <= |bs|
    ensures |Concat(bs[..m])| <= |Concat(bs)|
    decreases |bs|
  {
    assert bs[..|bs|] == bs;
    if m < |bs| {
      var n := |bs| - 1;
      ConcatPrefix(bs[..n], m);
      assert bs[..n][..m] == bs[..m];
    }
  }

  /** Batch k of a split of s is the slice of s that starts after the earlier batches. */
  lemma ConcatSlice<T>(s: seq<T>, bs: seq<seq<T>>, k: nat)
    requires Concat(bs) == s && k < |bs|
    ensures |Concat(bs[..k])| + |bs[k]| <= |s|
    ensures forall j | 0 <= j < |bs[k]| :: s[|Concat(bs[..k])| + j] == bs[k][j]
  {
    var off := |Concat(bs[..k])|;
    if |bs[k]| > 0 {
      ConcatAt(bs, k, |bs[k]| - 1);
    } else {
      ConcatPrefix(bs, k);
    }
    forall j | 0 <= j < |bs[k]|
      ensures off + j < |s| && s[off + j] == bs[k][j]
    {
      ConcatAt(bs, k, j);
    }
  }

  /**
   * The batches the source's loop `for i := 0; i < len(items); i += size`
   * produces: every batch but the last holds exactly `size` items, the last
   * holds the remainder, and no batch is empty.
   */
  function Chunks<T>(s: seq<T>, size: nat): (r: seq<seq<T>>)
    requires size > 0
    ensures forall k | 0 <= k < |r| :: 0 < |r[k]| <= size
    ensures forall k | 0 <= k < |r| - 1 :: |r[k]| == size
    decreases |s|
  {
    if |s| == 0 then []
    else if |s| <= size then [s]
    else [s[..size]] + Chunks(s[size..], size)
  }

  /** Chunking loses, reorders and duplicates nothing. */
  lemma {:induction false} ChunksConcat<T>(s: seq<T>, size: nat)
    requires size > 0
    ensures Concat(Chunks(s, size)) == s
    decreases |s|
  {
    if |s| == 0 {
    } else if |s| <= size {
      assert Chunks(s, size) == [s];
      assert Concat([s]) == Concat([s][..0]) + s;
    } else {
      var rest := Chunks(s[size..], size);
      assert Chunks(s, size) == [s[..size]] + rest;
      ChunksConcat(s[size..], size);
      ConcatPrepend(s[..size], rest);
      assert s[..size] + s[size..] == s;
    }
  }

  /** ceil(n / d) */
  function CeilDiv(n: nat, d: nat): nat
    requires d > 0
  {
    (n + d - 1) / d
  }

  /** There are ceil(|s| / size) batches; in particular none for an empty input. */
  lemma {:induction false} ChunksCount<T>(s: seq<T>, size: nat)
    requires size > 0
    ensures |Chunks(s, size)| == CeilDiv(|s|, size)
    decreases |s|
  {
    if |s| == 0 {
      assert (size - 1) / size == 0;
    } else if |s| <= size {
      assert size <= |s| + size - 1 < 2 * size;
      DivBetween(|s| + size - 1, size, 1);
    } else {
      ChunksCount(s[size..], size);
      var m := |s| - size + size - 1;
      DivShift(m, size);
    }
  }

  lemma DivBetween(x: nat, d: nat, q: nat)
    requires d > 0 && q * d <= x < (q + 1) * d
    ensures x / d == q
  {
    var r := x / d;
    assert x == r * d + x % d;
    if r > q {
      MulMono(q + 1, r, d);
    } else if r < q {
      MulMono(r + 1, q, d);
    }
  }

  lemma MulMono(a: nat, b: nat, d: nat)
    requires a <= b
    ensures a * d <= b * d
  {
    assert b * d == a * d + (b - a) * d;
  }

  lemma DivShift(x: nat, d: nat)
    requires d > 0
    ensures (x + d) / d == x / d + 1
  {
    DivBetween(x + d, d, x / d + 1);
  }

  function Min(a: int, b: int): int { if a <= b then a else b }

  /**
   * The loop of splitIndexedValues / splitStrings: batches items[i:end] with
   * end = min(i + size, len(items)), for i = 0, size, 2*size, ...
   * The source only calls it with the configured (positive) batch size.
   */
  method Split<T>(items: seq<T>, size: nat) returns (batches: seq<seq<T>>)
    requires size > 0
    ensures batches == Chunks(items, size)
  {
    batches := [];
    var i := 0;
    while i < |items|
      invariant Chunks(items, size) == batches + Chunks(items[Min(i, |items|)..], size)
      decreases |items| - i
    {
      var end := i + size;
      if end > |items| {
        end := |items|;
      }
      var rest := items[i..];
      if |rest| > size {
        assert rest[..size] == items[i..end];
        assert rest[size..] == items[Min(i + size, |items|)..];
      } else {
        assert rest == items[i..end];
      }
      batches := batches + [items[i..end]];
      i := i + size;
    }
  }
}
