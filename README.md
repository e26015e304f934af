# Contrastive pairs data pipeline and bi-encoder batch shaping

This is a Dafny model of the integer and sequence logic in the contrastive
(query/passage) training path of llm-foundry. It covers two files.

- `llmfoundry/data/contrastive_pairs/dataloader.py`:
  - the collator wrapper that adds a `sequence_id` entry (a running count of
    separator tokens) to each batch;
  - the token counter returned by `get_tokens_per_batch_func`;
  - the keyword arguments of `StreamingPairsDataset`;
  - how one stored sample becomes the list of texts handed to the tokenizer.
- `llmfoundry/models/mpt_embed/modeling_mpt_embed.py`:
  - the choice of loss function at construction;
  - `forward`'s merge of a `(samples, texts, length)` batch into
    `(samples * texts, length)` rows;
  - the even/odd split of rows into queries and passages;
  - the labels and score-matrix shape of the in-batch contrastive loss;
  - the FLOP estimate.

## How the model is organised

- Tensors are a flat row-major `data` sequence with a `shape`, plus the
  invariant `|data| == Product(shape)` (`Tensors.Tensor`). A reshape keeps
  the data. `Rows`, `Planes`, `Cube` and `Grid` are views of the data.
- A batch the source mutates in place is a `Batches.Batch` object whose
  `entries` map the methods reassign. The collator's `__call__` and
  `forward` are such methods.
- Objects configured once in `__init__` and never changed afterwards are
  datatypes built by a function returning `Result`, so the error paths are
  explicit. These are the collator, the dataset options and the model's
  loss function.
- The error a Python call raises is a `Wrappers.Error` constructor. Each one
  is named after the exception type: `ValueError`, `KeyError`,
  `IndexError`, `RuntimeError`, `NotImplementedError` or `AttributeError`.

## Model

| member | source | states |
|---|---|---|
| SequenceIdCollator.NewCollator | llmfoundry/data/contrastive_pairs/dataloader.py:258-281 | construction fails (ValueError) exactly when both or neither of the EOS and BOS ids are given; BOS mode holds iff no EOS id was given; the split token is the id that was given |
| SequenceIdCollator.CumSumAt | llmfoundry/data/contrastive_pairs/dataloader.py:291-292 | entry `i` of the running sum is the sum of the first `i + 1` values |
| SequenceIdCollator.SumFlagsCountsSeparators | llmfoundry/data/contrastive_pairs/dataloader.py:290-292 | the sum of the first `c` separator flags of a row is the number of separator positions before `c` |
| SequenceIdCollator.RowSequenceIdsCount | llmfoundry/data/contrastive_pairs/dataloader.py:290-299 | in BOS mode id `c` counts the separators at positions `<= c`; in EOS mode it counts those at positions `< c`, so id 0 is 0; the row keeps its width, except an empty EOS row gets one column |
| SequenceIdCollator.RowSequenceIdsSteps | llmfoundry/data/contrastive_pairs/dataloader.py:290-299 | ids lie between 0 and the row length, never decrease, grow by at most one per position, and start at 1 only for a BOS separator in column 0 |
| SequenceIdCollator.AxisOneSequenceIdsCount | llmfoundry/data/contrastive_pairs/dataloader.py:290-295 | on one sample of a tensor with three or more axes, `cumsum(dim=1)` of the separator flags puts at `[j][c]` the number of slices `j' <= j` holding the separator at position `c` |
| SequenceIdCollator.SequenceIdFromBatch | llmfoundry/data/contrastive_pairs/dataloader.py:288-299 | a missing `input_ids` is a KeyError, fewer than two axes an IndexError, more than two in EOS mode a RuntimeError; a matrix gives ids with the input's rows, each entry the separator count of its row up to that column; in BOS mode three or more axes give ids of the input's shape whose entry `[i][j][c]` counts the texts `j' <= j` of sample `i` holding the separator at position `c` |
| SequenceIdCollator.Call | llmfoundry/data/contrastive_pairs/dataloader.py:283-286 | on success the batch gains exactly the `sequence_id` entry and every other entry is unchanged; on failure the batch is unchanged and the error is returned |
| SequenceIdCollator.BosIdsRunAcrossTexts | llmfoundry/data/contrastive_pairs/dataloader.py:290-295 | as written, on a `(samples, texts, length)` batch in BOS mode, a text opening with the separator followed by an ordinary token gives that token id 0, where counting along the text gives 1 |
| SequenceIdCollator.PerTextSequenceIds | llmfoundry/data/contrastive_pairs/dataloader.py:290-299 | corrected ids for the finding below: the shape is `(samples, texts, width)` and entry `[i][j][c]` counts the separators of text `[i][j]` up to `c` (BOS) or before `c` (EOS), as for a matrix row |
| SequenceIdCollator.TextSequenceIdsAreMergedRowIds | llmfoundry/data/contrastive_pairs/dataloader.py:290-299 | the corrected ids of text `j` of sample `i` are row `i * texts + j` of the ids the wrapper computes on the merged `(samples * texts, length)` batch |
| TokenCounting.NonPadCountIsPositions | llmfoundry/data/contrastive_pairs/dataloader.py:408-409 | the summed comparison counts exactly the positions not holding the pad id, and so is at most the number of entries |
| TokenCounting.NumTokensInBatch | llmfoundry/data/contrastive_pairs/dataloader.py:396-417 | ValueError exactly when the batch is not a mapping, lacks `input_ids`, or (encoder-decoder) lacks `decoder_input_ids`; otherwise the number of non-pad entries of `input_ids`, plus those of `decoder_input_ids` for encoder-decoders, bounded by the total entry count |
| PairsDataset.NewPairsDataset | llmfoundry/data/contrastive_pairs/dataloader.py:113-132 | a non-None `group_method` is NotImplementedError; otherwise any keyword outside the four known ones is ValueError; the append token is the EOS string iff `append_eos_token` is truthy, else empty; the prefixes are `str()` of the given values, `''` by default |
| PairsDataset.LookupIsDictLookup | llmfoundry/data/contrastive_pairs/dataloader.py:219-222 | on a sample whose column names do not repeat, `sample[key]` yields a value exactly when the sample holds that column with that value |
| PairsDataset.PairColumnTextsAppend | llmfoundry/data/contrastive_pairs/dataloader.py:212-216 | the column texts of two consecutive runs of columns are the texts of the first followed by those of the second (key order is kept) |
| PairsDataset.PairColumnTextsEmpty | llmfoundry/data/contrastive_pairs/dataloader.py:212-216 | a sample yields no column texts iff no key starts with `text_a` or `text_b` |
| PairsDataset.NegativeTextsAt | llmfoundry/data/contrastive_pairs/dataloader.py:232-235 | one text per negative, in order, each the passage prefix, the negative and the append token |
| PairsDataset.PairColumnsWin | llmfoundry/data/contrastive_pairs/dataloader.py:212-222 | when any key starts with `text_a` or `text_b`, the texts are the column texts and the fallback columns are never read |
| PairsDataset.FallbackAssembly | llmfoundry/data/contrastive_pairs/dataloader.py:219-235 | without such keys and with non-empty query, positive and pickled negatives, the texts are query, positive and the `k` negatives, `2 + k` in all, each with its prefix and the append token |
| PairsDataset.FallbackOnlyWhenComplete | llmfoundry/data/contrastive_pairs/dataloader.py:219-222 | without such keys, texts are produced only if all three fallback columns are present and non-empty |
| PairsDataset.GetItemTexts | llmfoundry/data/contrastive_pairs/dataloader.py:208-235 | the two appending loops build exactly the text list described by the column and fallback rules (KeyError when a fallback column read is missing) |
| Tensors.Reshape | llmfoundry/models/mpt_embed/modeling_mpt_embed.py:213 | a reshape succeeds iff the new shape holds as many elements as the tensor, keeps the elements in order, and otherwise is a RuntimeError |
| Tensors.MergedRowAt | llmfoundry/models/mpt_embed/modeling_mpt_embed.py:207-211 | row `i * d2 + j` of the `(d1 * d2)`-row chunking of a `(d1, d2, d3)` tensor is its slice `[i][j]` |
| MptContrastive.SelectLossFunction | llmfoundry/models/mpt_embed/modeling_mpt_embed.py:159-179 | absent `loss_fn` means fused cross-entropy; only `fused_crossentropy` (when importable) and `torch_crossentropy` are accepted, anything else is ValueError (the corrected half of the loss-name finding below); both ignore target -100 |
| MptContrastive.SelectLossFunctionAsWritten | llmfoundry/models/mpt_embed/modeling_mpt_embed.py:176-179 | as written, an unrecognised name is an AttributeError for `loss_fn`, and only there does the result differ from the intended selection; accepted names give the same loss function |
| MptContrastive.NewContrastiveLM | llmfoundry/models/mpt_embed/modeling_mpt_embed.py:157-179 | construction succeeds exactly when the loss function is accepted, stores the selected loss function, and keeps the parameter count and the backbone's depth and width |
| MptContrastive.SelectRows | llmfoundry/models/mpt_embed/modeling_mpt_embed.py:189 | `t[start::2]` has `(n - start + 1) / 2` slices and slice `i` is slice `start + 2i` of `t` |
| MptContrastive.FormatBatch | llmfoundry/models/mpt_embed/modeling_mpt_embed.py:181-199 | IndexError exactly when some entry has fewer than two axes; otherwise the same keys, each entry keeping rows `start, start + 2, ...` in order |
| MptContrastive.FormatQueriesBatch | llmfoundry/models/mpt_embed/modeling_mpt_embed.py:181-190 | the same keys, each entry with `ceil(n/2)` rows |
| MptContrastive.FormatPassagesBatch | llmfoundry/models/mpt_embed/modeling_mpt_embed.py:192-199 | the same keys, each entry with `floor(n/2)` rows |
| MptContrastive.QueriesAndPassagesPartitionRows | llmfoundry/models/mpt_embed/modeling_mpt_embed.py:185-197 | interleaving query rows and passage rows restores every entry's rows, so the two selections partition them |
| MptContrastive.ReshapeEachSpec | llmfoundry/models/mpt_embed/modeling_mpt_embed.py:213-223 | reshaping a list of keys, each only if present, keeps the keys, fails (RuntimeError) iff a present entry has the wrong element count, and otherwise reshapes exactly those entries |
| MptContrastive.ForwardReshapeSpec | llmfoundry/models/mpt_embed/modeling_mpt_embed.py:207-223 | `forward` keeps the keys; KeyError without `input_ids`, ValueError unless it is 3-D, RuntimeError iff another reshaped entry's element count differs; on success the four entries hold their elements under `(d1 * d2, d3)` and every other entry is untouched |
| MptContrastive.ForwardMergesRows | llmfoundry/models/mpt_embed/modeling_mpt_embed.py:207-211 | after `forward`, row `i * d2 + j` of `input_ids` is text `j` of sample `i` |
| MptContrastive.MergedRows | llmfoundry/models/mpt_embed/modeling_mpt_embed.py:210-211 | row `i * d2 + j` of the `(d1 * d2, d3)` reshape is slice `[i][j]` |
| MptContrastive.Forward | llmfoundry/models/mpt_embed/modeling_mpt_embed.py:200-223 | the in-place updates leave the batch and the outcome that `ForwardReshape` describes |
| MptContrastive.ArangeAt | llmfoundry/models/mpt_embed/modeling_mpt_embed.py:332 | `arange(lo, hi)` has `hi - lo` entries and entry `i` is `lo + i` |
| MptContrastive.FullContrastiveScoresAndLabels | llmfoundry/models/mpt_embed/modeling_mpt_embed.py:329-339 | IndexError for passages with no axis, RuntimeError unless both inputs are 2-D of equal width; otherwise scores have one row per query and one column per passage, and label `i` is `i` |
| MptContrastive.ScoreRowsMatchLabelsIffEven | llmfoundry/models/mpt_embed/modeling_mpt_embed.py:248-249 | after the split, there are as many score rows as labels iff the batch has an even number of rows |
| MptContrastive.FlopsPerBatch | llmfoundry/models/mpt_embed/modeling_mpt_embed.py:367-378 | KeyError without `input_ids`, ValueError with fewer than two axes; otherwise batch size times the cost of one sequence of the second axis's length |
| MptContrastive.FlopsLinearInBatchSize | llmfoundry/models/mpt_embed/modeling_mpt_embed.py:372-378 | the estimate is additive in the batch size and equals `bs` times the one-sequence cost |
| MptContrastive.FlopsMonotoneInLength | llmfoundry/models/mpt_embed/modeling_mpt_embed.py:373-378 | longer sequences never cost less |
| PairGrouping.HardNegativeBecomesQuery | llmfoundry/models/mpt_embed/modeling_mpt_embed.py:248-249 | with one hard negative per sample, query 1 is the first sample's negative, its target passage is the second sample's query, and there are more query rows than samples |
| PairGrouping.EvenOddSplitOfTriples | llmfoundry/models/mpt_embed/modeling_mpt_embed.py:181-199 | the even/odd split of a merged batch of three-text samples, row by row |
| PairGrouping.ForwardAllMerged | llmfoundry/models/mpt_embed/modeling_mpt_embed.py:207-223 | when every entry is one `forward` reshapes, success leaves only 2-D entries and `input_ids` keeps its elements |
| PairGrouping.GatherRows | llmfoundry/models/mpt_embed/modeling_mpt_embed.py:248-249 | corrected grouping for the hard-negative finding: indexing by a position list keeps the other axes, and slice `k` is the slice at position `k` |
| PairGrouping.PassageAt | llmfoundry/models/mpt_embed/modeling_mpt_embed.py:248-249 | corrected grouping for the hard-negative finding: in the grouping by sample, passage `i * (d2 - 1) + j` is text `j + 1` of sample `i` |
| PairGrouping.GroupingBySample | llmfoundry/models/mpt_embed/modeling_mpt_embed.py:248-249 | corrected grouping for the hard-negative finding: one query per sample, and label `i` selects the passage right after query `i` |
| PairGrouping.GroupedIndicesInRange | llmfoundry/models/mpt_embed/modeling_mpt_embed.py:248-249 | corrected grouping for the hard-negative finding: every grouped position is a row of the merged batch |
| PairGrouping.GroupedSplit | llmfoundry/models/mpt_embed/modeling_mpt_embed.py:248-249 | corrected grouping for the hard-negative finding: one query row and one label per sample; query `i` is the sample's first text and its label selects the sample's second text |
| PairGrouping.GroupedSplitAfterForward | llmfoundry/models/mpt_embed/modeling_mpt_embed.py:207-223 | corrected grouping for the hard-negative finding: after `forward`, the grouping by sample pairs each sample's query with its own positive, whatever the number of hard negatives |
| PairGrouping.GroupingAgreesOnPairs | llmfoundry/models/mpt_embed/modeling_mpt_embed.py:181-199 | with two texts per sample, the grouping by sample is exactly the even/odd split with label `i` for query `i` |

## Left out

- Dataset plumbing is left out because it is I/O or external-library
  plumbing. This covers:
  - the `StreamingDataset` super-constructor and `Stream` construction;
  - the local-directory check;
  - the shuffling, sharding and download parameters;
  - the `DataLoader` wiring in `build_pairs_dataloader`;
  - the `__main__` harness.
- The tokenizer is external, so `_tokenize` and the pad-token defaulting
  are left out. The model stops at the list of strings handed to the
  tokenizer. The tokenizer's EOS string is a parameter.
- `pickle.loads` of the negatives is left out. Its output is the
  `negatives` parameter. Decoding binary tokenized samples is left out too.
- `dist_gather_tensor` is a collective across ranks. The labels and score
  shape are modelled on one rank's tensors.
- These floating-point steps are left out: masked mean pooling,
  normalisation, temperature scaling, the score values and the
  cross-entropy loss itself. Only the score shape and the labels are
  modelled.
- These calls are left out: the MPT backbone call, the base collator (its
  output is the batch the wrapper receives), metrics, and debug printing.
  `llmfoundry/models/layers/custom_embedding.py` is not part of this
  model.
- `forward`'s `add_bidirectional_mask_if_missing` call for prefix-LM models
  is left out. It only runs when the backbone is configured as a prefix LM.
- PairsDataset.NewPairsDataset: keyword values are None, strings, booleans
  or integers. A tokenizer whose EOS token is None is not modelled.
- PairsDataset.GetItemTexts: sample values are strings, and their
  truthiness is that of the string. The negatives column is judged by its
  pickled bytes, so the fallback can run with zero negatives.
- PairsDataset.Sample: a sample is a sequence of column/value pairs. That
  its column names do not repeat, as in a dictionary, is the predicate
  `DistinctColumns`. Only `LookupIsDictLookup` needs it; on a repeated name
  `Lookup` takes the first value while the column loop visits each pair.
- MptContrastive.FlopsPerBatch: the backbone's depth and width are fields
  of the model datatype rather than read from the backbone's configuration.

## Findings

| source | as written | input that shows it | evidently intended | confidence | as-written member | corrected member |
|---|---|---|---|---|---|---|
| llmfoundry/models/mpt_embed/modeling_mpt_embed.py:248-249 | after `forward` merges samples of query, positive and hard negatives, the loss takes even rows as queries and odd rows as passages, and pairs query `i` with passage `i` | `input_ids` of shape `(2, 3, L)`, each sample a query, a positive and one hard negative: query 1 is sample 0's negative, scored against sample 1's query as its target, and there are 3 query rows for 2 samples | one query per sample (its first text), all other texts as passages, and each query's label pointing at its own positive | medium, not executed | PairGrouping.HardNegativeBecomesQuery | PairGrouping.GroupedSplit |
| llmfoundry/data/contrastive_pairs/dataloader.py:290-295 | in BOS mode the ids are `cumsum(dim=1)` of the separator flags, returned as they are; on the `(samples, texts, length)` `input_ids` this pipeline collates, axis 1 is the texts axis, so entry `[i][j][c]` counts the texts `j' <= j` of sample `i` holding the separator at position `c` | a BOS-mode batch of shape `(1, 1, 2)` whose text is the separator followed by an ordinary token: that token gets id 0 | the running count along the tokens of each text, as for a 2-D batch, which is also what the wrapper gives on the rows `forward` later merges | medium, not executed | SequenceIdCollator.BosIdsRunAcrossTexts | SequenceIdCollator.PerTextSequenceIds |
| llmfoundry/models/mpt_embed/modeling_mpt_embed.py:176-179 | the error for an unrecognised `loss_fn` formats `self.loss_fn`, which no branch has assigned, so `nn.Module` attribute lookup raises an AttributeError before the ValueError is built (assuming no base class sets `loss_fn`) | model configuration with `loss_fn: mse` | a ValueError naming the accepted losses | medium, not executed | MptContrastive.SelectLossFunctionAsWritten | MptContrastive.SelectLossFunction |
