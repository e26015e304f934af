/** The token counter that `get_tokens_per_batch_func(pad_token_id,
    decoder_only)` returns: the number of non-padding entries of a batch's
    `input_ids`, plus those of `decoder_input_ids` for encoder-decoder
    models. */
module TokenCounting {
  import opened Wrappers
  import opened Tensors

  /** What the counter may be handed: a mapping of tensors, or any other
      batch object (a bare tensor, a list, a tuple). */
  datatype BatchArg = Mapping(entries: map<string, Tensor>) | NotMapping

  /** `torch.sum(xs != pad)`. */
  function NonPadCount(xs: seq<int>, pad: int): nat
  {
    if xs == [] then 0
    else NonPadCount(xs[..|xs| - 1], pad) + (if xs[|xs| - 1] != pad then 1 else 0)
  }

  /** Reference definition: the positions of `xs` holding a real token. */
  function NonPadPositions(xs: seq<int>, pad: int): set<nat>
  {
    set i: nat | i < |xs| && xs[i] != pad
  }

  /** The reduction counts exactly the non-padding positions, and so never
      exceeds the number of entries. */
  lemma {:induction false} NonPadCountIsPositions(xs: seq<int>, pad: int)
    ensures NonPadCount(xs, pad) == |NonPadPositions(xs, pad)|
    ensures NonPadCount(xs, pad) <= |xs|
  {
    if xs != [] {
      var init := xs[..|xs| - 1];
      var last := |xs| - 1;
      NonPadCountIsPositions(init, pad);
      var before := NonPadPositions(init, pad);
      if xs[last] != pad {
        assert NonPadPositions(xs, pad) == before + {last};
        assert last !in before;
      } else {
        assert NonPadPositions(xs, pad) == before;
      }
    }
  }

  /** The counter.  It raises ValueError when the batch is not a mapping or
      has no `input_ids`, and, for an encoder-decoder (`decoderOnly` false),
      when `decoder_input_ids` is missing.  Otherwise the count is the number
      of non-padding entries of `input_ids`, plus those of
      `decoder_input_ids` when not `decoderOnly`; the shapes do not matter. */
  function NumTokensInBatch(padTokenId: int, decoderOnly: bool, batch: BatchArg): (r: Result<nat>)
    ensures r.Err? <==> (batch.NotMapping? || "input_ids" !in batch.entries
                         || (!decoderOnly && "decoder_input_ids" !in batch.entries))
    ensures r.Err? ==> r.error.ValueError?
    ensures r.Ok? ==>
      r.value == |NonPadPositions(batch.entries["input_ids"].data, padTokenId)|
                 + (if decoderOnly then 0
                    else |NonPadPositions(batch.entries["decoder_input_ids"].data, padTokenId)|)
    ensures r.Ok? ==>
      r.value <= |batch.entries["input_ids"].data|
                 + (if decoderOnly then 0 else |batch.entries["decoder_input_ids"].data|)
  {
    if batch.NotMapping? || "input_ids" !in batch.entries then
      Err(ValueError("batch has no input_ids"))
    else if !decoderOnly && "decoder_input_ids" !in batch.entries then
      Err(ValueError("encoder-decoder batch has no decoder_input_ids"))
    else
      var inputIds := batch.entries["input_ids"].data;
      NonPadCountIsPositions(inputIds, padTokenId);
      if decoderOnly then
        var total: nat := NonPadCount(inputIds, padTokenId);
        Ok(total)
      else
        var decoderIds := batch.entries["decoder_input_ids"].data;
        NonPadCountIsPositions(decoderIds, padTokenId);
        var total: nat := NonPadCount(inputIds, padTokenId) + NonPadCount(decoderIds, padTokenId);
        Ok(total)
  }
}
