/** How the rows of a merged batch are grouped into queries and passages
    once samples carry hard negatives.  `forward` merges a batch of `d1`
    samples of `d2` texts each (query, positive passage, then `d2 - 2` hard
    negatives) into `d1 * d2` rows, sample by sample; the loss then takes
    the even rows as queries, the odd rows as passages, and pairs query `i`
    with passage `i`.  That grouping is right only for `d2 == 2`.  This
    module exhibits the mismatch for `d2 == 3` and defines the grouping by
    sample that the contrastive loss needs, which coincides with the
    even/odd split when there are no hard negatives. */
module PairGrouping {
  import opened Seqs
  import opened Tensors
  import opened MptContrastive

  /** With one hard negative per sample and at least two samples, the
      even/odd split applied after `forward` uses the first sample's hard
      negative as query 1, and scores it against passage 1, which is the
      second sample's query; there are also more query rows than samples,
      so the score matrix no longer has one row per sample. */
  lemma HardNegativeBecomesQuery(entries: map<string, Tensor>)
    requires forall k :: k in entries ==> k in ReshapedKeys
    requires "input_ids" in entries && |entries["input_ids"].shape| == 3
    requires entries["input_ids"].shape[0] >= 2 && entries["input_ids"].shape[1] == 3
    requires SizesAgree(entries, |entries["input_ids"].data|)
    ensures ForwardReshape(entries).1.Pass?
    ensures var ids := entries["input_ids"];
            var after := ForwardReshape(entries).0;
            && FormatQueriesBatch(after).Ok? && FormatPassagesBatch(after).Ok?
            && "input_ids" in FormatQueriesBatch(after).value && "input_ids" in FormatPassagesBatch(after).value
            && var queries := FormatQueriesBatch(after).value["input_ids"];
               var passages := FormatPassagesBatch(after).value["input_ids"];
               && |queries.shape| == 2 && |passages.shape| == 2
               && queries.shape[0] > ids.shape[0] && passages.shape[0] >= 2
               && Rows(queries)[1] == Planes(ids)[0][2]
               && Rows(passages)[1] == Planes(ids)[1][0]
  {
    var ids := entries["input_ids"];
    ForwardReshapeSpec(entries);
    ForwardAllMerged(entries);
    var after := ForwardReshape(entries).0;
    var merged := after["input_ids"];
    assert FormatQueriesBatch(after).value["input_ids"] == SelectRows(merged, 0);
    assert FormatPassagesBatch(after).value["input_ids"] == SelectRows(merged, 1);
    EvenOddSplitOfTriples(merged, ids);
  }

  /** The even/odd split of a merged batch of samples of three texts. */
  lemma EvenOddSplitOfTriples(merged: Tensor, ids: Tensor)
    requires |ids.shape| == 3 && ids.shape[0] >= 2 && ids.shape[1] == 3
    requires merged == TensorValue([ids.shape[0] * ids.shape[1], ids.shape[2]], ids.data)
    ensures var queries := SelectRows(merged, 0);
            var passages := SelectRows(merged, 1);
            && |queries.shape| == 2 && |passages.shape| == 2
            && queries.shape[0] > ids.shape[0] && passages.shape[0] >= 2
            && Rows(queries)[1] == Planes(ids)[0][2]
            && Rows(passages)[1] == Planes(ids)[1][0]
  {
    var d1 := ids.shape[0];
    var queries := SelectRows(merged, 0);
    var passages := SelectRows(merged, 1);
    assert queries.shape[0] == (d1 * 3 + 1) / 2 && passages.shape[0] == (d1 * 3) / 2;
    MergedRows(ids, merged, 0, 2);
    MergedRows(ids, merged, 1, 0);
  }

  /** When every entry is one that `forward` reshapes, a successful
      `forward` leaves only `(d1 * d2, d3)` tensors, `input_ids` holding its
      old elements. */
  lemma ForwardAllMerged(entries: map<string, Tensor>)
    requires forall k :: k in entries ==> k in ReshapedKeys
    requires ForwardReshape(entries).1.Pass?
    ensures "input_ids" in entries && |entries["input_ids"].shape| == 3
    ensures var ids := entries["input_ids"];
            var after := ForwardReshape(entries).0;
            && after.Keys == entries.Keys
            && (forall k :: k in after ==> |after[k].shape| == 2)
            && after["input_ids"] == TensorValue([ids.shape[0] * ids.shape[1], ids.shape[2]], ids.data)
  {
    ForwardReshapeSpec(entries);
  }

  /** `t[idx]`: the slices of `t` at the given positions, in that order. */
  function GatherRows(t: Tensor, idx: seq<nat>): (r: Tensor)
    requires |t.shape| >= 1 && forall k :: 0 <= k < |idx| ==> idx[k] < t.shape[0]
    ensures r.shape == [|idx|] + t.shape[1..]
    ensures forall k :: 0 <= k < |idx| ==> Rows(r)[k] == Rows(t)[idx[k]]
  {
    var rows := Rows(t);
    var picked := seq(|idx|, k requires 0 <= k < |idx| => rows[idx[k]]);
    RowsStack(picked, t.shape[1..]);
    Stack(picked, t.shape[1..])
  }

  /** Position of the first text (the query) of every sample. */
  function QueryRowIndices(samples: nat, texts: nat): (r: seq<nat>)
    ensures |r| == samples
  {
    seq(samples, i requires 0 <= i < samples => i * texts)
  }

  /** Positions of the other texts of sample `i`: its positive, then its
      hard negatives. */
  function PassageBlock(i: nat, texts: nat): (r: seq<nat>)
    requires texts >= 1
    ensures |r| == texts - 1
  {
    seq(texts - 1, j requires 0 <= j < texts - 1 => i * texts + 1 + j)
  }

  /** Positions of every passage, sample by sample. */
  function PassageRowIndices(samples: nat, texts: nat): seq<nat>
    requires texts >= 1
  {
    Concat<nat>(seq(samples, i requires 0 <= i < samples => PassageBlock(i, texts)))
  }

  /** For each query, the position of its positive among the passages. */
  function PositiveLabels(samples: nat, texts: nat): (r: seq<nat>)
    requires texts >= 1
    ensures |r| == samples
  {
    seq(samples, i requires 0 <= i < samples => i * (texts - 1))
  }

  /** Passage `i * (texts - 1) + j` is text `j + 1` of sample `i`, so the
      passages are exactly the non-query rows, in order. */
  lemma PassageAt(samples: nat, texts: nat, i: nat, j: nat)
    requires texts >= 2 && i < samples && j < texts - 1
    ensures |PassageRowIndices(samples, texts)| == samples * (texts - 1)
    ensures i * (texts - 1) + j < samples * (texts - 1)
    ensures PassageRowIndices(samples, texts)[i * (texts - 1) + j] == i * texts + 1 + j
  {
    var blocks: seq<seq<nat>> := seq(samples, k requires 0 <= k < samples => PassageBlock(k, texts));
    assert Uniform(blocks, texts - 1);
    ConcatAt(blocks, texts - 1, i, j);
  }

  /** The grouping by sample: one query per sample, and each query's label
      pointing at the first of its own passages. */
  lemma GroupingBySample(samples: nat, texts: nat)
    requires texts >= 2
    ensures var queries := QueryRowIndices(samples, texts);
            var passages := PassageRowIndices(samples, texts);
            var labels := PositiveLabels(samples, texts);
            && |passages| == samples * (texts - 1)
            && (forall i :: 0 <= i < samples ==>
                  queries[i] == i * texts && labels[i] < |passages| && passages[labels[i]] == queries[i] + 1)
  {
    var blocks: seq<seq<nat>> := seq(samples, k requires 0 <= k < samples => PassageBlock(k, texts));
    assert Uniform(blocks, texts - 1);
    ConcatLength(blocks, texts - 1);
    forall i | 0 <= i < samples
      ensures PositiveLabels(samples, texts)[i] < samples * (texts - 1)
      ensures PassageRowIndices(samples, texts)[PositiveLabels(samples, texts)[i]] == i * texts + 1
    {
      PassageAt(samples, texts, i, 0);
    }
  }

  /** Every grouped position lies inside the merged batch. */
  lemma GroupedIndicesInRange(samples: nat, texts: nat)
    requires texts >= 2
    ensures forall k :: 0 <= k < samples ==> QueryRowIndices(samples, texts)[k] < samples * texts
    ensures forall k :: 0 <= k < |PassageRowIndices(samples, texts)| ==>
              PassageRowIndices(samples, texts)[k] < samples * texts
  {
    var blocks: seq<seq<nat>> := seq(samples, i requires 0 <= i < samples => PassageBlock(i, texts));
    forall i | 0 <= i < samples
      ensures i * texts + texts <= samples * texts
      ensures forall j :: 0 <= j < |blocks[i]| ==> blocks[i][j] < samples * texts
    {
      MulLeft(i + 1, samples, texts);
    }
    ConcatBound(blocks, samples * texts);
  }

  /** Every element of a concatenation of sequences bounded by `b` is below `b`. */
  lemma {:induction false} ConcatBound(xss: seq<seq<nat>>, b: nat)
    requires forall i :: 0 <= i < |xss| ==> forall j :: 0 <= j < |xss[i]| ==> xss[i][j] < b
    ensures forall k :: 0 <= k < |Concat<nat>(xss)| ==> Concat<nat>(xss)[k] < b
  {
    if xss != [] {
      ConcatBound(xss[1..], b);
      var c := Concat<nat>(xss);
      var rest := Concat<nat>(xss[1..]);
      assert c == xss[0] + rest;
      assert forall i :: 0 <= i < |xss[1..]| ==> xss[1..][i] == xss[i + 1];
      forall k | 0 <= k < |c|
        ensures c[k] < b
      {
        if k < |xss[0]| {
          assert c[k] == xss[0][k];
        } else {
          assert c[k] == rest[k - |xss[0]|];
        }
      }
    }
  }

  /** The queries, passages and labels of a merged `(samples * texts, width)`
      batch grouped by sample.  There is one query and one label per sample;
      query `i` is the sample's first text and its label selects the
      sample's second text among the passages. */
  function GroupedSplit(merged: Tensor, samples: nat, texts: nat): (r: (Tensor, Tensor, seq<nat>))
    requires |merged.shape| == 2 && texts >= 2 && merged.shape[0] == samples * texts
    ensures r.0.shape == [samples, merged.shape[1]]
    ensures r.1.shape == [samples * (texts - 1), merged.shape[1]]
    ensures |r.2| == samples
    ensures forall i :: 0 <= i < samples ==>
              && r.2[i] < r.1.shape[0]
              && Rows(r.0)[i] == Rows(merged)[i * texts]
              && Rows(r.1)[r.2[i]] == Rows(merged)[i * texts + 1]
  {
    var queryRows := QueryRowIndices(samples, texts);
    var passageRows := PassageRowIndices(samples, texts);
    var labels := PositiveLabels(samples, texts);
    GroupingBySample(samples, texts);
    GroupedIndicesInRange(samples, texts);
    assert merged.shape[1..] == [merged.shape[1]];
    var queries := GatherRows(merged, queryRows);
    var passages := GatherRows(merged, passageRows);
    assert forall i :: 0 <= i < samples ==>
              && labels[i] < passages.shape[0]
              && Rows(queries)[i] == Rows(merged)[i * texts]
              && Rows(passages)[labels[i]] == Rows(merged)[i * texts + 1]
    by {
      forall i | 0 <= i < samples
        ensures labels[i] < passages.shape[0]
        ensures Rows(queries)[i] == Rows(merged)[i * texts]
        ensures Rows(passages)[labels[i]] == Rows(merged)[i * texts + 1]
      {
        assert queryRows[i] == i * texts;
        assert passageRows[labels[i]] == i * texts + 1;
      }
    }
    (queries, passages, labels)
  }

  /** Applied after `forward`, the grouping by sample scores the query of
      every sample against that sample's own positive passage, whatever the
      number of hard negatives. */
  lemma GroupedSplitAfterForward(entries: map<string, Tensor>, i: nat)
    requires ForwardReshape(entries).1.Pass?
    requires "input_ids" in entries && |entries["input_ids"].shape| == 3
    requires entries["input_ids"].shape[1] >= 2 && i < entries["input_ids"].shape[0]
    ensures var ids := entries["input_ids"];
            var merged := ForwardReshape(entries).0["input_ids"];
            && |merged.shape| == 2 && merged.shape[0] == ids.shape[0] * ids.shape[1]
            && var (queries, passages, labels) := GroupedSplit(merged, ids.shape[0], ids.shape[1]);
               && Rows(queries)[i] == Planes(ids)[i][0]
               && Rows(passages)[labels[i]] == Planes(ids)[i][1]
  {
    ForwardReshapeSpec(entries);
    var ids := entries["input_ids"];
    assert "input_ids" in ReshapedKeys;
    var merged := ForwardReshape(entries).0["input_ids"];
    MergedRows(ids, merged, i, 0);
    MergedRows(ids, merged, i, 1);
  }

  /** The positions `0, 1, ..., n - 1`. */
  function RowIndices(n: nat): (r: seq<nat>)
    ensures |r| == n && forall k :: 0 <= k < n ==> r[k] == k
  {
    seq(n, k requires 0 <= k < n => k)
  }

  /** Without hard negatives the grouping by sample is the even/odd split
      with label `i` for query `i`, so the two agree on pair batches. */
  lemma GroupingAgreesOnPairs(samples: nat)
    ensures QueryRowIndices(samples, 2) == EveryOther(RowIndices(2 * samples), 0)
    ensures PassageRowIndices(samples, 2) == EveryOther(RowIndices(2 * samples), 1)
    ensures forall i :: 0 <= i < samples ==> PositiveLabels(samples, 2)[i] == i
  {
    var all := RowIndices(2 * samples);
    EveryOtherLength(all, 0);
    if samples > 0 {
      EveryOtherLength(all, 1);
    }
    EveryOtherElements(all, 0);
    EveryOtherElements(all, 1);
    GroupingBySample(samples, 2);
    var passages := PassageRowIndices(samples, 2);
    forall i | 0 <= i < samples
      ensures passages[i] == 2 * i + 1
    {
      PassageAt(samples, 2, i, 0);
    }
  }
}
