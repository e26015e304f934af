/** Dense integer tensors as the torch code sees them: a shape and the
    elements in row-major order.  Indexing along the first axis, stacking
    and `reshape` are defined here; floating-point element types are not
    modelled (every element is an `int`). */
module Tensors {
  import opened Seqs
  import opened Wrappers

  /** Number of elements of a tensor with dimensions `dims`. */
  function Product(dims: seq<nat>): nat
  {
    if dims == [] then 1 else dims[0] * Product(dims[1..])
  }

  datatype TensorValue = TensorValue(shape: seq<nat>, data: seq<int>)

  /** A tensor always holds exactly as many elements as its shape says. */
  type Tensor = t: TensorValue | |t.data| == Product(t.shape) witness TensorValue([], [0])

  lemma ProductOfTwo(a: nat, b: nat)
    ensures Product([a, b]) == a * b
    ensures Product([a, b][1..]) == b
  {
    assert [a, b][1..] == [b];
    assert [b][1..] == [];
    assert Product([b]) == b * Product([]) == b;
  }

  lemma ProductOfThree(a: nat, b: nat, c: nat)
    ensures Product([a, b, c][1..]) == b * c
    ensures Product([a, b, c]) == a * (b * c)
  {
    assert [a, b, c][1..] == [b, c];
    ProductOfTwo(b, c);
  }

  /** Number of elements in one slice `t[i]` along the first axis. */
  function RowSize(t: Tensor): nat
    requires |t.shape| >= 1
  {
    Product(t.shape[1..])
  }

  /** The slices `t[0], t[1], ...` along the first axis, each flattened. */
  function Rows(t: Tensor): (r: seq<seq<int>>)
    requires |t.shape| >= 1
    ensures |r| == t.shape[0] && Uniform(r, RowSize(t))
  {
    Chunks(t.data, RowSize(t), t.shape[0])
  }

  /** Stacks flattened slices of shape `rowShape` along a new first axis. */
  function Stack(rows: seq<seq<int>>, rowShape: seq<nat>): (t: Tensor)
    requires Uniform(rows, Product(rowShape))
    ensures t.shape == [|rows|] + rowShape
  {
    ConcatLength(rows, Product(rowShape));
    assert ([|rows|] + rowShape)[1..] == rowShape;
    TensorValue([|rows|] + rowShape, Concat(rows))
  }

  /** Stacking the slices of a tensor gives the tensor back. */
  lemma StackRows(t: Tensor)
    requires |t.shape| >= 1
    ensures Stack(Rows(t), t.shape[1..]) == t
  {
    ConcatChunks(t.data, RowSize(t), t.shape[0]);
    assert [t.shape[0]] + t.shape[1..] == t.shape;
  }

  /** Slicing a stacked tensor gives the stacked slices back. */
  lemma RowsStack(rows: seq<seq<int>>, rowShape: seq<nat>)
    requires Uniform(rows, Product(rowShape))
    ensures Rows(Stack(rows, rowShape)) == rows
  {
    var t := Stack(rows, rowShape);
    assert t.shape[1..] == rowShape;
    ChunksConcat(rows, Product(rowShape));
  }

  /** torch `reshape`: same elements in the same order under a new shape;
      a RuntimeError when the element counts differ. */
  function Reshape(t: Tensor, shape: seq<nat>): (r: Result<Tensor>)
    ensures r.Ok? <==> Product(shape) == |t.data|
    ensures r.Ok? ==> r.value.shape == shape && r.value.data == t.data
    ensures r.Err? ==> r.error.RuntimeError?
  {
    if Product(shape) == |t.data| then Ok(TensorValue(shape, t.data))
    else Err(RuntimeError("shape is invalid for input size"))
  }

  /** The nested view of a 3-D tensor: `Planes(t)[i][j]` is the row `t[i][j]`. */
  function Planes(t: Tensor): (p: seq<seq<seq<int>>>)
    requires |t.shape| == 3
    ensures |p| == t.shape[0]
    ensures forall i :: 0 <= i < |p| ==> |p[i]| == t.shape[1] && Uniform(p[i], t.shape[2])
  {
    var d1, d2, d3 := t.shape[0], t.shape[1], t.shape[2];
    assert t.shape == [d1, d2, d3];
    ProductOfThree(d1, d2, d3);
    var rows := Rows(t);
    seq(d1, i requires 0 <= i < d1 => Chunks(rows[i], d3, d2))
  }

  /** Number of elements in one slice `t[i][j]` of a tensor of rank at least 2. */
  function TailSize(t: Tensor): nat
    requires |t.shape| >= 2
  {
    Product(t.shape[2..])
  }

  lemma RowSizeSplits(t: Tensor)
    requires |t.shape| >= 2
    ensures RowSize(t) == t.shape[1] * TailSize(t)
  {
    assert t.shape[1..][1..] == t.shape[2..];
  }

  /** The view of a tensor of rank at least 2 along its two leading axes:
      `Cube(t)[i][j]` is the slice `t[i][j]`, flattened. */
  function Cube(t: Tensor): (p: seq<seq<seq<int>>>)
    requires |t.shape| >= 2
    ensures |p| == t.shape[0]
    ensures forall i :: 0 <= i < |p| ==> |p[i]| == t.shape[1] && Uniform(p[i], TailSize(t))
  {
    RowSizeSplits(t);
    var rows := Rows(t);
    seq(t.shape[0], i requires 0 <= i < t.shape[0] => Chunks(rows[i], TailSize(t), t.shape[1]))
  }

  /** The tensor of shape `shape` whose slices `[i][j]` are `p[i][j]`. */
  function FromCube(p: seq<seq<seq<int>>>, shape: seq<nat>): (t: Tensor)
    requires |shape| >= 2 && |p| == shape[0]
    requires forall i :: 0 <= i < |p| ==> |p[i]| == shape[1] && Uniform(p[i], Product(shape[2..]))
    ensures t.shape == shape
    ensures Cube(t) == p
  {
    var tail := Product(shape[2..]);
    assert shape[1..][1..] == shape[2..];
    var rows := seq(|p|, i requires 0 <= i < |p| => Concat(p[i]));
    assert Uniform(rows, Product(shape[1..])) by {
      forall i | 0 <= i < |p| ensures |rows[i]| == Product(shape[1..]) {
        ConcatLength(p[i], tail);
      }
    }
    var t := Stack(rows, shape[1..]);
    assert [shape[0]] + shape[1..] == shape;
    RowsStack(rows, shape[1..]);
    assert Cube(t) == p by {
      forall i | 0 <= i < |p| ensures Cube(t)[i] == p[i] {
        ChunksConcat(p[i], tail);
      }
    }
    t
  }

  /** For a 3-D tensor the leading-axes view is the nested view. */
  lemma CubeIsPlanes(t: Tensor)
    requires |t.shape| == 3
    ensures Cube(t) == Planes(t)
  {
    var d1, d2, d3 := t.shape[0], t.shape[1], t.shape[2];
    assert t.shape == [d1, d2, d3];
    assert t.shape[2..] == [d3];
    assert Product([d3]) == d3 by {
      assert [d3][1..] == [];
    }
    assert TailSize(t) == d3;
    ProductOfThree(d1, d2, d3);
    forall i | 0 <= i < d1 ensures Cube(t)[i] == Planes(t)[i] {
    }
  }

  /** The 2-D view of a matrix: `Grid(t)[r][c]` is the element `t[r][c]`. */
  function Grid(t: Tensor): (g: seq<seq<int>>)
    requires |t.shape| == 2
    ensures |g| == t.shape[0] && Uniform(g, t.shape[1])
  {
    assert t.shape == [t.shape[0], t.shape[1]];
    ProductOfTwo(t.shape[0], t.shape[1]);
    Rows(t)
  }

  /** The matrix whose rows are `g`, each of width `w`. */
  function Matrix(g: seq<seq<int>>, w: nat): (t: Tensor)
    requires Uniform(g, w)
    ensures t.shape == [|g|, w]
    ensures Grid(t) == g
  {
    ProductOfTwo(|g|, w);
    var t := Stack(g, [w]);
    RowsStack(g, [w]);
    t
  }

  /** Merging the two leading axes of a 3-D tensor `(d1, d2, d3)` into one of
      length `d1 * d2` puts row `t[i][j]` at row `i * d2 + j`. */
  lemma {:induction false} MergedRowAt(t: Tensor, i: nat, j: nat)
    requires |t.shape| == 3 && i < t.shape[0] && j < t.shape[1]
    ensures |t.data| == (t.shape[0] * t.shape[1]) * t.shape[2]
    ensures i * t.shape[1] + j < t.shape[0] * t.shape[1]
    ensures Chunks(t.data, t.shape[2], t.shape[0] * t.shape[1])[i * t.shape[1] + j] == Planes(t)[i][j]
  {
    var d1, d2, d3 := t.shape[0], t.shape[1], t.shape[2];
    assert t.shape == [d1, d2, d3];
    ProductOfThree(d1, d2, d3);
    MulAssoc(d1, d2, d3);
    MulLeft(i + 1, d1, d2);
    var m := i * d2 + j;
    var rows := Rows(t);
    ChunkAt(t.data, d3, d1 * d2, m);
    ChunkAt(t.data, d2 * d3, d1, i);
    ChunkAt(rows[i], d3, d2, j);
    var a := i * (d2 * d3);
    RowOffset(i, j, d2, d3);
    assert rows[i] == t.data[a .. a + d2 * d3];
    SliceOfSlice(t.data, a, a + d2 * d3, j * d3, j * d3 + d3);
  }

  lemma MulAssoc(a: nat, b: nat, c: nat)
    ensures a * (b * c) == (a * b) * c
  {
  }

  lemma RowOffset(i: nat, j: nat, d2: nat, d3: nat)
    ensures (i * d2 + j) * d3 == i * (d2 * d3) + j * d3
  {
    calc {
      (i * d2 + j) * d3;
      (i * d2) * d3 + j * d3;
      { MulAssoc(i, d2, d3); }
      i * (d2 * d3) + j * d3;
    }
  }

  lemma SliceOfSlice(s: seq<int>, a: nat, b: nat, c: nat, d: nat)
    requires a <= b <= |s| && c <= d <= b - a
    ensures s[a..b][c..d] == s[a + c .. a + d]
  {
    assert forall k :: 0 <= k < d - c ==> s[a..b][c..d][k] == s[a + c .. a + d][k];
  }
}
