/** Sequence building blocks shared by the tensor layer and the batch
    operations: concatenation, fixed-width chunking (the inverse of
    concatenation), Python's `s[start::2]` slice, and interleaving. */
module Seqs {

  /** Concatenation of a sequence of sequences, in order. */
  function Concat<T>(xss: seq<seq<T>>): seq<T>
  {
    if xss == [] then [] else xss[0] + Concat(xss[1..])
  }

  /** Every element of `xss` has length `w`. */
  predicate Uniform<T>(xss: seq<seq<T>>, w: nat)
  {
    forall i :: 0 <= i < |xss| ==> |xss[i]| == w
  }

  lemma {:induction false} ConcatLength<T>(xss: seq<seq<T>>, w: nat)
    requires Uniform(xss, w)
    ensures |Concat(xss)| == |xss| * w
  {
    if xss != [] {
      ConcatLength(xss[1..], w);
    }
  }

  lemma {:induction false} ConcatAppend<T>(xss: seq<seq<T>>, yss: seq<seq<T>>)
    ensures Concat(xss + yss) == Concat(xss) + Concat(yss)
  {
    if xss == [] {
      assert xss + yss == yss;
    } else {
      assert (xss + yss)[1..] == xss[1..] + yss;
      ConcatAppend(xss[1..], yss);
    }
  }

  lemma MulLeft(a: nat, b: nat, w: nat)
    requires a <= b
    ensures a * w <= b * w
  {
  }

  /** Element `j` of block `i` sits at position `i * w + j` of the concatenation. */
  lemma {:induction false} ConcatAt<T>(xss: seq<seq<T>>, w: nat, i: nat, j: nat)
    requires Uniform(xss, w) && i < |xss| && j < w
    ensures |Concat(xss)| == |xss| * w
    ensures i * w + j < |xss| * w
    ensures Concat(xss)[i * w + j] == xss[i][j]
  {
    ConcatLength(xss, w);
    MulLeft(i + 1, |xss|, w);
    assert Concat(xss) == xss[0] + Concat(xss[1..]);
    if i > 0 {
      var k := (i - 1) * w + j;
      ConcatAt(xss[1..], w, i - 1, j);
      assert i * w + j == w + k by {
        assert i * w == (i - 1) * w + w;
      }
      assert Concat(xss)[w + k] == Concat(xss[1..])[k];
    } else {
      assert i * w + j == j;
    }
  }

  /** Splits `s` into `n` consecutive blocks of `w` elements each. */
  function Chunks<T>(s: seq<T>, w: nat, n: nat): (r: seq<seq<T>>)
    requires |s| == n * w
    ensures |r| == n && Uniform(r, w)
  {
    if n == 0 then []
    else
      assert |s[w..]| == (n - 1) * w;
      [s[..w]] + Chunks(s[w..], w, n - 1)
  }

  /** Chunking then concatenating gives the sequence back. */
  lemma {:induction false} ConcatChunks<T>(s: seq<T>, w: nat, n: nat)
    requires |s| == n * w
    ensures Concat(Chunks(s, w, n)) == s
  {
    if n > 0 {
      assert |s[w..]| == (n - 1) * w;
      ConcatChunks(s[w..], w, n - 1);
      assert s == s[..w] + s[w..];
    }
  }

  /** Concatenating blocks of width `w` then chunking gives the blocks back. */
  lemma {:induction false} ChunksConcat<T>(xss: seq<seq<T>>, w: nat)
    requires Uniform(xss, w)
    ensures |Concat(xss)| == |xss| * w
    ensures Chunks(Concat(xss), w, |xss|) == xss
  {
    ConcatLength(xss, w);
    if xss != [] {
      ChunksConcat(xss[1..], w);
      var c := Concat(xss);
      assert c == xss[0] + Concat(xss[1..]);
      assert c[..w] == xss[0];
      assert c[w..] == Concat(xss[1..]);
      assert xss == [xss[0]] + xss[1..];
    }
  }

  /** Block `i` of the chunking is the slice `[i * w, i * w + w)`. */
  lemma {:induction false} ChunkAt<T>(s: seq<T>, w: nat, n: nat, i: nat)
    requires |s| == n * w && i < n
    ensures i * w + w <= |s|
    ensures Chunks(s, w, n)[i] == s[i * w .. i * w + w]
  {
    if i > 0 {
      assert |s[w..]| == (n - 1) * w;
      ChunkAt(s[w..], w, n - 1, i - 1);
      assert i * w == w + (i - 1) * w;
      assert s[w..][(i - 1) * w .. (i - 1) * w + w] == s[i * w .. i * w + w];
    } else {
      assert n * w == w + (n - 1) * w;
    }
  }

  /** Python's `s[start::2]`: the elements at `start`, `start + 2`, `start + 4`, ... */
  function EveryOther<T>(s: seq<T>, start: nat): seq<T>
    decreases |s| - start
  {
    if start >= |s| then [] else [s[start]] + EveryOther(s, start + 2)
  }

  lemma {:induction false} EveryOtherLength<T>(s: seq<T>, start: nat)
    requires start <= |s|
    ensures |EveryOther(s, start)| == (|s| - start + 1) / 2
    decreases |s| - start
  {
    if start < |s| {
      if start + 2 <= |s| {
        EveryOtherLength(s, start + 2);
      }
    }
  }

  lemma {:induction false} EveryOtherAt<T>(s: seq<T>, start: nat, k: nat)
    requires start + 2 * k < |s|
    ensures k < |EveryOther(s, start)|
    ensures EveryOther(s, start)[k] == s[start + 2 * k]
    decreases k
  {
    if k > 0 {
      EveryOtherAt(s, start + 2, k - 1);
    }
  }

  /** Every element of the `start::2` slice is the element of `s` it was taken from. */
  lemma EveryOtherElements<T>(s: seq<T>, start: nat)
    ensures forall k :: 0 <= k < |EveryOther(s, start)| ==>
              start + 2 * k < |s| && EveryOther(s, start)[k] == s[start + 2 * k]
  {
    forall k | 0 <= k < |EveryOther(s, start)|
      ensures start + 2 * k < |s| && EveryOther(s, start)[k] == s[start + 2 * k]
    {
      if start < |s| {
        EveryOtherLength(s, start);
      }
      EveryOtherAt(s, start, k);
    }
  }

  lemma EveryOtherUniform<T>(s: seq<seq<T>>, start: nat, w: nat)
    requires Uniform(s, w)
    ensures Uniform(EveryOther(s, start), w)
  {
    EveryOtherElements(s, start);
  }

  /** `a[0], b[0], a[1], b[1], ...`; `a` is as long as `b` or one longer. */
  function Interleave<T>(a: seq<T>, b: seq<T>): (r: seq<T>)
    requires |b| <= |a| <= |b| + 1
    ensures |r| == |a| + |b|
    decreases |a| + |b|
  {
    if a == [] then [] else [a[0]] + Interleave(b, a[1..])
  }

  /** The `start::2` and `start+1::2` slices partition `s[start..]`:
      interleaving them restores it. */
  lemma {:induction false} InterleaveEveryOther<T>(s: seq<T>, start: nat)
    requires start <= |s|
    ensures |EveryOther(s, start + 1)| <= |EveryOther(s, start)| <= |EveryOther(s, start + 1)| + 1
    ensures Interleave(EveryOther(s, start), EveryOther(s, start + 1)) == s[start..]
    decreases |s| - start
  {
    EveryOtherLength(s, start);
    if start == |s| {
      assert EveryOther(s, start + 1) == [];
    } else {
      EveryOtherLength(s, start + 1);
      InterleaveEveryOther(s, start + 1);
      assert s[start..] == [s[start]] + s[start + 1..];
    }
  }
}
