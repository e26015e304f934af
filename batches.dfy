/** The batch dictionary (`Dict[str, torch.Tensor]`) that the collator and
    the model's forward pass update in place. */
module Batches {
  import opened Tensors

  class Batch {
    var entries: map<string, Tensor>

    constructor (entries: map<string, Tensor>)
      ensures this.entries == entries
    {
      this.entries := entries;
    }
  }
}
