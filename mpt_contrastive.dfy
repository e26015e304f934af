/** The contrastive (bi-encoder) wrapper around the MPT causal language
    model, restricted to its integer and shape logic: the loss-function
    choice made at construction, the reshape of `(samples, texts, length)`
    batches done by `forward`, the even/odd split of rows into queries and
    passages, the labels and score shape of the in-batch contrastive loss,
    and the FLOP estimate. */
module MptContrastive {
  import opened Wrappers
  import opened Seqs
  import opened Tensors
  import opened Batches
  import opened ConfigValues

  /* ---------------- construction ---------------- */

  /** The cross-entropy implementation the model trains with; both ignore
      targets equal to `ignoreIndex`. */
  datatype LossFunction = FusedCrossEntropy(ignoreIndex: int) | TorchCrossEntropy(ignoreIndex: int)

  const DefaultLossFn: ConfigValue := Text("fused_crossentropy")

  /** The `loss_fn` entry of the model configuration, `fused_crossentropy`
      when the entry is absent. */
  function LossFnName(lossFn: Option<ConfigValue>): ConfigValue
  {
    if lossFn.Some? then lossFn.value else DefaultLossFn
  }

  /** Only `fused_crossentropy` (when its kernel can be imported) and
      `torch_crossentropy` are accepted; everything else is a ValueError.
      Either loss ignores the target -100. */
  function SelectLossFunction(lossFn: Option<ConfigValue>, fusedInstalled: bool): (r: Result<LossFunction>)
    ensures r.Ok? <==> LossFnName(lossFn) == Text("torch_crossentropy")
                       || (LossFnName(lossFn) == Text("fused_crossentropy") && fusedInstalled)
    ensures r.Err? ==> r.error.ValueError?
    ensures r.Ok? ==> r.value.ignoreIndex == -100
    ensures r.Ok? ==> (r.value.FusedCrossEntropy? <==> LossFnName(lossFn) == Text("fused_crossentropy"))
    ensures lossFn.None? ==> (r.Ok? <==> fusedInstalled) && (r.Ok? ==> r.value.FusedCrossEntropy?)
  {
    var name := LossFnName(lossFn);
    if name == Text("fused_crossentropy") then
      if fusedInstalled then Ok(FusedCrossEntropy(-100))
      else Err(ValueError("fused cross entropy is not installed"))
    else if name == Text("torch_crossentropy") then Ok(TorchCrossEntropy(-100))
    else Err(ValueError("loss_fn not recognized"))
  }

  /** The two names the constructor accepts. */
  predicate KnownLossFnName(name: ConfigValue)
  {
    name == Text("fused_crossentropy") || name == Text("torch_crossentropy")
  }

  /** The constructor as written: the message of the "not recognized" error
      formats `self.loss_fn`, which no branch has assigned at that point, so
      the module's attribute lookup fails first and the caller receives an
      AttributeError naming `loss_fn` instead of the intended ValueError.
      Accepted names behave as `SelectLossFunction`. */
  function SelectLossFunctionAsWritten(lossFn: Option<ConfigValue>, fusedInstalled: bool): (r: Result<LossFunction>)
    ensures r.Ok? <==> SelectLossFunction(lossFn, fusedInstalled).Ok?
    ensures r.Err? ==> (r.error.AttributeError? <==> !KnownLossFnName(LossFnName(lossFn)))
    ensures r.Err? && r.error.AttributeError? ==> r.error.name == "loss_fn"
    ensures r == SelectLossFunction(lossFn, fusedInstalled) <==> KnownLossFnName(LossFnName(lossFn))
  {
    if KnownLossFnName(LossFnName(lossFn)) then SelectLossFunction(lossFn, fusedInstalled)
    else Err(AttributeError("loss_fn"))
  }

  /** The state of the wrapper that the modelled operations read: the loss
      function, the parameter count, and the backbone's depth and width. */
  datatype ContrastiveLM = ContrastiveLM(
    lossFn: LossFunction,
    nActiveParams: nat,
    nLayers: nat,
    dModel: nat)

  /** Construction succeeds exactly when the loss function is accepted. */
  function NewContrastiveLM(lossFn: Option<ConfigValue>, fusedInstalled: bool,
                            nActiveParams: nat, nLayers: nat, dModel: nat): (r: Result<ContrastiveLM>)
    ensures r.Ok? <==> SelectLossFunction(lossFn, fusedInstalled).Ok?
    ensures r.Err? ==> r.error.ValueError?
    ensures r.Ok? ==> r.value.nActiveParams == nActiveParams && r.value.nLayers == nLayers
                      && r.value.dModel == dModel && r.value.lossFn.ignoreIndex == -100
    ensures r.Ok? ==> r.value.lossFn == SelectLossFunction(lossFn, fusedInstalled).value
  {
    match SelectLossFunction(lossFn, fusedInstalled)
    case Ok(loss) => Ok(ContrastiveLM(loss, nActiveParams, nLayers, dModel))
    case Err(e) => Err(e)
  }

  /* ---------------- query / passage split ---------------- */

  /** `t[start::2, ...]`: every other slice along the first axis, from
      `start`; the other axes are kept. */
  function SelectRows(t: Tensor, start: nat): (r: Tensor)
    requires |t.shape| >= 1 && start <= 1
    ensures r.shape == [(t.shape[0] - start + 1) / 2] + t.shape[1..]
    ensures forall i :: 0 <= i < r.shape[0] ==> start + 2 * i < t.shape[0] && Rows(r)[i] == Rows(t)[start + 2 * i]
  {
    var rows := Rows(t);
    var picked := EveryOther(rows, start);
    EveryOtherUniform(rows, start, RowSize(t));
    assert |picked| == (|rows| - start + 1) / 2 by {
      if start <= |rows| {
        EveryOtherLength(rows, start);
      }
    }
    EveryOtherElements(rows, start);
    RowsStack(picked, t.shape[1..]);
    Stack(picked, t.shape[1..])
  }

  /** The loop shared by `format_queries_batch` (`start` 0) and
      `format_passages_batch` (`start` 1): every entry is sliced `[start::2, :]`,
      which raises IndexError on a tensor with fewer than two axes.  The
      result has the same keys; entry `k` keeps rows `start, start + 2, ...`
      of `batch[k]`, in order. */
  function FormatBatch(batch: map<string, Tensor>, start: nat): (r: Result<map<string, Tensor>>)
    requires start <= 1
    ensures r.Ok? <==> forall k :: k in batch ==> |batch[k].shape| >= 2
    ensures r.Err? ==> r.error.IndexError?
    ensures r.Ok? ==> r.value.Keys == batch.Keys
    ensures r.Ok? ==> forall k :: k in batch ==>
              && r.value[k].shape == [(batch[k].shape[0] - start + 1) / 2] + batch[k].shape[1..]
              && (forall i :: 0 <= i < r.value[k].shape[0] ==>
                    Rows(r.value[k])[i] == Rows(batch[k])[start + 2 * i])
  {
    if forall k :: k in batch ==> |batch[k].shape| >= 2 then
      Ok(map k | k in batch :: SelectRows(batch[k], start))
    else
      Err(IndexError("too many indices for tensor"))
  }

  /** `format_queries_batch`: rows 0, 2, 4, ... of every entry. */
  function FormatQueriesBatch(batch: map<string, Tensor>): (r: Result<map<string, Tensor>>)
    ensures r.Ok? <==> forall k :: k in batch ==> |batch[k].shape| >= 2
    ensures r.Ok? ==> r.value.Keys == batch.Keys
    ensures r.Ok? ==> forall k :: k in batch ==>
              |batch[k].shape| >= 2 && r.value[k].shape == [(batch[k].shape[0] + 1) / 2] + batch[k].shape[1..]
  {
    FormatBatch(batch, 0)
  }

  /** `format_passages_batch`: rows 1, 3, 5, ... of every entry. */
  function FormatPassagesBatch(batch: map<string, Tensor>): (r: Result<map<string, Tensor>>)
    ensures r.Ok? <==> forall k :: k in batch ==> |batch[k].shape| >= 2
    ensures r.Ok? ==> r.value.Keys == batch.Keys
    ensures r.Ok? ==> forall k :: k in batch ==>
              |batch[k].shape| >= 2 && r.value[k].shape == [batch[k].shape[0] / 2] + batch[k].shape[1..]
  {
    FormatBatch(batch, 1)
  }

  /** The query rows and the passage rows partition every entry: taking a
      query row, then a passage row, and so on, restores the entry's rows. */
  lemma QueriesAndPassagesPartitionRows(batch: map<string, Tensor>, k: string)
    requires k in batch
    requires forall key :: key in batch ==> |batch[key].shape| >= 2
    ensures FormatQueriesBatch(batch).Ok? && FormatPassagesBatch(batch).Ok?
    ensures var queries := Rows(FormatQueriesBatch(batch).value[k]);
            var passages := Rows(FormatPassagesBatch(batch).value[k]);
            && |passages| <= |queries| <= |passages| + 1
            && Interleave(queries, passages) == Rows(batch[k])
  {
    var t := batch[k];
    var rows := Rows(t);
    var q := FormatQueriesBatch(batch).value[k];
    var p := FormatPassagesBatch(batch).value[k];
    assert q == SelectRows(t, 0);
    assert p == SelectRows(t, 1);
    EveryOtherUniform(rows, 0, RowSize(t));
    EveryOtherUniform(rows, 1, RowSize(t));
    RowsStack(EveryOther(rows, 0), t.shape[1..]);
    RowsStack(EveryOther(rows, 1), t.shape[1..]);
    InterleaveEveryOther(rows, 0);
    assert rows[0..] == rows;
  }

  /* ---------------- forward: merging samples and texts ---------------- */

  /** Reshapes `entries[key]` to `shape` if the key is present; the entry
      is left alone when absent, and a size mismatch raises. */
  function ReshapeIfPresent(entries: map<string, Tensor>, key: string, shape: seq<nat>): (map<string, Tensor>, Outcome)
  {
    if key !in entries then (entries, Pass)
    else
      match Reshape(entries[key], shape)
      case Ok(t) => (entries[key := t], Pass)
      case Err(e) => (entries, Fail(e))
  }

  /** The entries of `keys` reshaped one after the other, stopping at the
      first that raises, with the earlier ones already replaced. */
  function ReshapeEach(entries: map<string, Tensor>, keys: seq<string>, shape: seq<nat>): (map<string, Tensor>, Outcome)
    decreases |keys|
  {
    if keys == [] then (entries, Pass)
    else
      var (next, outcome) := ReshapeIfPresent(entries, keys[0], shape);
      if outcome.Fail? then (next, outcome) else ReshapeEach(next, keys[1..], shape)
  }

  /** The entries `forward` reshapes, in its order. */
  const ReshapedKeys: seq<string> := ["input_ids", "attention_mask", "sequence_id", "labels"]

  /** The batch as `forward` leaves it, and whether it raised: `input_ids`
      must be present (KeyError) with exactly three axes `(d1, d2, d3)`
      (ValueError on unpacking); it and then `attention_mask`,
      `sequence_id` and `labels`, each only if present, are reshaped to
      `(d1 * d2, d3)`. */
  function ForwardReshape(entries: map<string, Tensor>): (map<string, Tensor>, Outcome)
  {
    if "input_ids" !in entries then (entries, Fail(KeyError("input_ids")))
    else
      var ids := entries["input_ids"];
      if |ids.shape| != 3 then (entries, Fail(ValueError("expected three dimensions to unpack")))
      else ReshapeEach(entries, ReshapedKeys, [ids.shape[0] * ids.shape[1], ids.shape[2]])
  }

  /** Every present entry among `input_ids`, `attention_mask`,
      `sequence_id` and `labels` holds `count` elements. */
  predicate SizesAgree(entries: map<string, Tensor>, count: nat)
  {
    forall k :: k in entries && k in ReshapedKeys ==> |entries[k].data| == count
  }

  /** `cur` is `orig` with the entries named in `done` (those present)
      reshaped to `shape`, keeping their elements, and nothing else changed. */
  predicate ReshapedFrom(orig: map<string, Tensor>, cur: map<string, Tensor>, done: set<string>, shape: seq<nat>)
  {
    && cur.Keys == orig.Keys
    && forall k :: k in orig ==> cur[k] == (if k in done then TensorValue(shape, orig[k].data) else orig[k])
  }

  /** Reshaping a list of entries keeps the keys; it fails (RuntimeError)
      exactly when one of them is present with the wrong element count, and
      otherwise reshapes exactly those entries. */
  lemma {:induction false} ReshapeEachSpec(orig: map<string, Tensor>, cur: map<string, Tensor>,
                                           done: set<string>, keys: seq<string>, shape: seq<nat>)
    requires ReshapedFrom(orig, cur, done, shape)
    ensures var (after, outcome) := ReshapeEach(cur, keys, shape);
            && after.Keys == orig.Keys
            && (outcome.Pass? <==> forall k :: k in keys && k in orig ==> |orig[k].data| == Product(shape))
            && (outcome.Fail? ==> outcome.error.RuntimeError?)
            && (outcome.Pass? ==> ReshapedFrom(orig, after, done + (set k | k in keys), shape))
    decreases |keys|
  {
    if keys != [] {
      var key := keys[0];
      if key in orig {
        assert |cur[key].data| == |orig[key].data|;
      }
      var (next, outcome) := ReshapeIfPresent(cur, key, shape);
      if outcome.Pass? {
        assert ReshapedFrom(orig, next, done + {key}, shape);
        ReshapeEachSpec(orig, next, done + {key}, keys[1..], shape);
        assert forall k :: k in keys <==> k == key || k in keys[1..];
        assert done + {key} + (set k | k in keys[1..]) == done + (set k | k in keys);
      }
    }
  }

  /** The element count of a 3-D tensor is that of its `(d1 * d2, d3)` reshape. */
  lemma MergedShapeCount(ids: Tensor)
    requires |ids.shape| == 3
    ensures Product([ids.shape[0] * ids.shape[1], ids.shape[2]]) == |ids.data|
  {
    var d1, d2, d3 := ids.shape[0], ids.shape[1], ids.shape[2];
    assert ids.shape == [d1, d2, d3];
    ProductOfThree(d1, d2, d3);
    ProductOfTwo(d1 * d2, d3);
    MulAssoc(d1, d2, d3);
  }

  /** `forward` keeps the keys of the batch.  It fails exactly when
      `input_ids` is missing (KeyError), is not 3-D (ValueError), or another
      reshaped entry is present with a different element count
      (RuntimeError).  On success `input_ids`, `attention_mask`,
      `sequence_id` and `labels` (those present) hold the same elements
      under shape `(d1 * d2, d3)`, and every other entry is untouched. */
  lemma ForwardReshapeSpec(entries: map<string, Tensor>)
    ensures var (after, outcome) := ForwardReshape(entries);
      && after.Keys == entries.Keys
      && ("input_ids" !in entries ==> outcome == Fail(KeyError("input_ids")))
      && ("input_ids" in entries && |entries["input_ids"].shape| != 3 ==>
            outcome.Fail? && outcome.error.ValueError?)
      && ("input_ids" in entries && |entries["input_ids"].shape| == 3 ==>
            (outcome.Pass? <==> SizesAgree(entries, |entries["input_ids"].data|))
            && (outcome.Fail? ==> outcome.error.RuntimeError?))
      && (outcome.Pass? ==>
            var ids := entries["input_ids"];
            var target := [ids.shape[0] * ids.shape[1], ids.shape[2]];
            && (forall k :: k in entries && k in ReshapedKeys ==> after[k] == TensorValue(target, entries[k].data))
            && (forall k :: k in entries && k !in ReshapedKeys ==> after[k] == entries[k]))
  {
    if "input_ids" in entries && |entries["input_ids"].shape| == 3 {
      var ids := entries["input_ids"];
      var target := [ids.shape[0] * ids.shape[1], ids.shape[2]];
      MergedShapeCount(ids);
      assert ReshapedFrom(entries, entries, {}, target);
      ReshapeEachSpec(entries, entries, {}, ReshapedKeys, target);
      assert {} + (set k | k in ReshapedKeys) == set k | k in ReshapedKeys;
    }
  }

  /** After a successful `forward`, row `i * d2 + j` of the merged
      `input_ids` is text `j` of sample `i`. */
  lemma ForwardMergesRows(entries: map<string, Tensor>, i: nat, j: nat)
    requires ForwardReshape(entries).1.Pass?
    ensures "input_ids" in entries && |entries["input_ids"].shape| == 3
    ensures var ids := entries["input_ids"];
            var merged := ForwardReshape(entries).0["input_ids"];
            0 <= i < ids.shape[0] && 0 <= j < ids.shape[1] ==>
              && |merged.shape| == 2
              && i * ids.shape[1] + j < merged.shape[0]
              && Rows(merged)[i * ids.shape[1] + j] == Planes(ids)[i][j]
  {
    ForwardReshapeSpec(entries);
    var ids := entries["input_ids"];
    var after := ForwardReshape(entries).0;
    assert "input_ids" in ReshapedKeys;
    var merged := after["input_ids"];
    if 0 <= i < ids.shape[0] && 0 <= j < ids.shape[1] {
      MergedRows(ids, merged, i, j);
    }
  }

  /** Row `i * d2 + j` of the `(d1 * d2, d3)` reshape of a 3-D tensor is its
      slice `[i][j]`. */
  lemma MergedRows(ids: Tensor, merged: Tensor, i: nat, j: nat)
    requires |ids.shape| == 3 && i < ids.shape[0] && j < ids.shape[1]
    requires merged == TensorValue([ids.shape[0] * ids.shape[1], ids.shape[2]], ids.data)
    ensures i * ids.shape[1] + j < merged.shape[0]
    ensures Rows(merged)[i * ids.shape[1] + j] == Planes(ids)[i][j]
  {
    var d1, d2, d3 := ids.shape[0], ids.shape[1], ids.shape[2];
    MergedRowAt(ids, i, j);
    assert merged.shape[1..] == [d3];
    ProductOfTwo(d1 * d2, d3);
    assert RowSize(merged) == d3;
    assert Rows(merged) == Chunks(ids.data, d3, d1 * d2);
  }

  /** `forward`, up to the backbone call: replaces the entries of the batch
      in place as `ForwardReshape` describes. */
  method Forward(batch: Batch) returns (outcome: Outcome)
    modifies batch
    ensures (batch.entries, outcome) == ForwardReshape(old(batch.entries))
  {
    if "input_ids" !in batch.entries {
      return Fail(KeyError("input_ids"));
    }
    var ids := batch.entries["input_ids"];
    if |ids.shape| != 3 {
      return Fail(ValueError("expected three dimensions to unpack"));
    }
    var target := [ids.shape[0] * ids.shape[1], ids.shape[2]];
    ghost var rest := ReshapedKeys;
    assert ForwardReshape(old(batch.entries)) == ReshapeEach(batch.entries, rest, target);
    var merged := Reshape(ids, target);
    if merged.Err? {
      return Fail(merged.error);
    }
    batch.entries := batch.entries["input_ids" := merged.value];
    rest := rest[1..];
    assert ForwardReshape(old(batch.entries)) == ReshapeEach(batch.entries, rest, target);
    if "attention_mask" in batch.entries {
      var mask := Reshape(batch.entries["attention_mask"], target);
      if mask.Err? {
        return Fail(mask.error);
      }
      batch.entries := batch.entries["attention_mask" := mask.value];
    }
    rest := rest[1..];
    assert ForwardReshape(old(batch.entries)) == ReshapeEach(batch.entries, rest, target);
    if "sequence_id" in batch.entries {
      var sequenceId := Reshape(batch.entries["sequence_id"], target);
      if sequenceId.Err? {
        return Fail(sequenceId.error);
      }
      batch.entries := batch.entries["sequence_id" := sequenceId.value];
    }
    rest := rest[1..];
    assert ForwardReshape(old(batch.entries)) == ReshapeEach(batch.entries, rest, target);
    if "labels" in batch.entries {
      var labels := Reshape(batch.entries["labels"], target);
      if labels.Err? {
        return Fail(labels.error);
      }
      batch.entries := batch.entries["labels" := labels.value];
    }
    rest := rest[1..];
    assert ForwardReshape(old(batch.entries)) == ReshapeEach(batch.entries, rest, target);
    return Pass;
  }

  /* ---------------- contrastive labels ---------------- */

  /** `torch.arange(lo, hi)`. */
  function Arange(lo: int, hi: int): seq<int>
    decreases hi - lo
  {
    if lo >= hi then [] else [lo] + Arange(lo + 1, hi)
  }

  lemma {:induction false} ArangeAt(lo: int, hi: int)
    ensures |Arange(lo, hi)| == if lo <= hi then hi - lo else 0
    ensures forall i :: 0 <= i < |Arange(lo, hi)| ==> Arange(lo, hi)[i] == lo + i
    decreases hi - lo
  {
    if lo < hi {
      ArangeAt(lo + 1, hi);
    }
  }

  /** The score matrix's shape and the targets of the in-batch loss. */
  datatype ScoresAndLabels = ScoresAndLabels(scoresShape: seq<nat>, labels: seq<int>)

  /** `full_contrastive_scores_and_labels`: query `i` is scored against every
      passage and its target is passage `i`.  Reading the passage count
      needs an axis (IndexError); `queries @ passages.T` needs two 2-D
      tensors of equal width (RuntimeError). */
  function FullContrastiveScoresAndLabels(queries: Tensor, passages: Tensor): (r: Result<ScoresAndLabels>)
    ensures |passages.shape| == 0 ==> r.Err? && r.error.IndexError?
    ensures r.Ok? <==> |queries.shape| == 2 && |passages.shape| == 2 && queries.shape[1] == passages.shape[1]
    ensures r.Err? ==> r.error.IndexError? || r.error.RuntimeError?
    ensures r.Ok? ==> r.value.scoresShape == [queries.shape[0], passages.shape[0]]
    ensures r.Ok? ==> |r.value.labels| == passages.shape[0]
                      && forall i :: 0 <= i < passages.shape[0] ==> r.value.labels[i] == i
  {
    if |passages.shape| == 0 then Err(IndexError("tuple index out of range"))
    else
      var labels := Arange(0, passages.shape[0]);
      ArangeAt(0, passages.shape[0]);
      if |queries.shape| != 2 || |passages.shape| != 2 || queries.shape[1] != passages.shape[1] then
        Err(RuntimeError("mat1 and mat2 shapes cannot be multiplied"))
      else
        Ok(ScoresAndLabels([queries.shape[0], passages.shape[0]], labels))
  }

  /** After the split of `n` rows there are one more query than passages
      when `n` is odd: then the score matrix has more rows than there are
      labels.  The counts agree exactly when `n` is even. */
  lemma ScoreRowsMatchLabelsIffEven(batch: map<string, Tensor>)
    requires forall key :: key in batch ==> |batch[key].shape| >= 2
    requires "input_ids" in batch
    ensures FormatQueriesBatch(batch).Ok? && FormatPassagesBatch(batch).Ok?
    ensures var q := FormatQueriesBatch(batch).value["input_ids"];
            var p := FormatPassagesBatch(batch).value["input_ids"];
            q.shape[0] == p.shape[0] <==> batch["input_ids"].shape[0] % 2 == 0
  {
    var n := batch["input_ids"].shape[0];
    var q := FormatQueriesBatch(batch).value["input_ids"];
    var p := FormatPassagesBatch(batch).value["input_ids"];
    assert q.shape[0] == (n + 1) / 2;
    assert p.shape[0] == n / 2;
  }

  /* ---------------- cost estimate ---------------- */

  /** Estimated training FLOPs of `bs` sequences of length `msl`: per
      sequence, 2 per parameter per token plus 4 * d_model * msl^2 per
      layer for attention, tripled for the backward pass. */
  function BatchFlops(m: ContrastiveLM, bs: nat, msl: nat): nat
  {
    (2 * m.nActiveParams * msl + m.nLayers * 2 * 2 * (m.dModel * (msl * msl))) * 3 * bs
  }

  /** `flops_per_batch`: `input_ids` must be present (KeyError) with at
      least two axes (ValueError on unpacking); the first two are the batch
      size and sequence length. */
  function FlopsPerBatch(m: ContrastiveLM, batch: map<string, Tensor>): (r: Result<nat>)
    ensures "input_ids" !in batch ==> r == Err(KeyError("input_ids"))
    ensures "input_ids" in batch ==> (r.Ok? <==> |batch["input_ids"].shape| >= 2)
    ensures "input_ids" in batch && r.Err? ==> r.error.ValueError?
    ensures r.Ok? ==> r.value == batch["input_ids"].shape[0] * BatchFlops(m, 1, batch["input_ids"].shape[1])
  {
    if "input_ids" !in batch then Err(KeyError("input_ids"))
    else
      var shape := batch["input_ids"].shape;
      if |shape| < 2 then Err(ValueError("not enough values to unpack"))
      else
        FlopsLinearInBatchSize(m, shape[0], 0, shape[1]);
        Ok(BatchFlops(m, shape[0], shape[1]))
  }

  /** The estimate is additive in the batch size, so it is `bs` times the
      cost of one sequence. */
  lemma FlopsLinearInBatchSize(m: ContrastiveLM, a: nat, b: nat, msl: nat)
    ensures BatchFlops(m, a + b, msl) == BatchFlops(m, a, msl) + BatchFlops(m, b, msl)
    ensures BatchFlops(m, a, msl) == a * BatchFlops(m, 1, msl)
  {
    var perSeq := 2 * m.nActiveParams * msl + m.nLayers * 2 * 2 * (m.dModel * (msl * msl));
    assert BatchFlops(m, a + b, msl) == perSeq * 3 * (a + b);
    assert perSeq * 3 * (a + b) == perSeq * 3 * a + perSeq * 3 * b;
    assert perSeq * 3 * a == a * (perSeq * 3 * 1);
  }

  /** Longer sequences never cost less. */
  lemma FlopsMonotoneInLength(m: ContrastiveLM, bs: nat, short: nat, long: nat)
    requires short <= long
    ensures BatchFlops(m, bs, short) <= BatchFlops(m, bs, long)
  {
    MulLeft(short, long, 2 * m.nActiveParams);
    assert 2 * m.nActiveParams * short <= 2 * m.nActiveParams * long;
    MulLeft(short, long, short);
    MulLeft(short, long, long);
    assert short * short <= long * long;
    MulLeft(short * short, long * long, m.dModel);
    assert m.dModel * (short * short) <= m.dModel * (long * long);
    MulLeft(m.dModel * (short * short), m.dModel * (long * long), m.nLayers * 2 * 2);
    var s := 2 * m.nActiveParams * short + m.nLayers * 2 * 2 * (m.dModel * (short * short));
    var l := 2 * m.nActiveParams * long + m.nLayers * 2 * 2 * (m.dModel * (long * long));
    assert s <= l;
    MulLeft(s, l, 3);
    MulLeft(s * 3, l * 3, bs);
  }
}
