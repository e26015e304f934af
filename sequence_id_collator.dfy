/** The collator wrapper that adds a `sequence_id` entry to every batch:
    for each row of `input_ids`, a running count of separator tokens, so
    that concatenated sequences in one row can be told apart.  With a BOS
    separator the count includes the current position; with an EOS
    separator it is shifted one place right and starts at 0. */
module SequenceIdCollator {
  import opened Wrappers
  import opened Seqs
  import opened Tensors
  import opened Batches

  /** The configured wrapper: which token separates sequences, and whether
      that token opens (BOS) or closes (EOS) a sequence. */
  datatype Collator = Collator(splitTokenId: int, bosMode: bool)

  /** Construction: exactly one of the two token ids must be supplied. */
  function NewCollator(eosTokenId: Option<int>, bosTokenId: Option<int>): (r: Result<Collator>)
    ensures r.Err? <==> (eosTokenId.None? <==> bosTokenId.None?)
    ensures r.Err? ==> r.error.ValueError?
    ensures r.Ok? ==> (r.value.bosMode <==> eosTokenId.None?)
    ensures r.Ok? && eosTokenId.Some? ==> r.value.splitTokenId == eosTokenId.value
    ensures r.Ok? && bosTokenId.Some? ==> r.value.splitTokenId == bosTokenId.value
  {
    if eosTokenId.None? && bosTokenId.None? then
      Err(ValueError("neither eos_token_id nor bos_token_id given"))
    else if eosTokenId.Some? && bosTokenId.Some? then
      Err(ValueError("both eos_token_id and bos_token_id given"))
    else if eosTokenId.None? then
      Ok(Collator(bosTokenId.value, true))
    else
      Ok(Collator(eosTokenId.value, false))
  }

  /** Reference definition: the number of positions `j < c` of `row` that
      hold the separator token. */
  function SeparatorsBefore(row: seq<int>, split: int, c: nat): nat
  {
    |set j | 0 <= j < c && j < |row| && row[j] == split|
  }

  lemma SeparatorsStep(row: seq<int>, split: int, c: nat)
    requires c < |row|
    ensures SeparatorsBefore(row, split, c + 1)
            == SeparatorsBefore(row, split, c) + (if row[c] == split then 1 else 0)
  {
    var before := set j | 0 <= j < c && j < |row| && row[j] == split;
    var after := set j | 0 <= j < c + 1 && j < |row| && row[j] == split;
    if row[c] == split {
      assert after == before + {c};
      assert c !in before;
    } else {
      assert after == before;
    }
  }

  lemma {:induction false} SeparatorsBound(row: seq<int>, split: int, c: nat)
    requires c <= |row|
    ensures SeparatorsBefore(row, split, c) <= c
  {
    if c > 0 {
      SeparatorsBound(row, split, c - 1);
      SeparatorsStep(row, split, c - 1);
    }
  }

  /** `torch.eq(row, split)`, as 0/1 integers. */
  function SeparatorFlags(row: seq<int>, split: int): (f: seq<int>)
    ensures |f| == |row|
  {
    seq(|row|, j requires 0 <= j < |row| => if row[j] == split then 1 else 0)
  }

  function Sum(xs: seq<int>): int
  {
    if xs == [] then 0 else Sum(xs[..|xs| - 1]) + xs[|xs| - 1]
  }

  /** `torch.cumsum` along one row: the running totals of `xs`. */
  function CumSum(xs: seq<int>): (r: seq<int>)
    ensures |r| == |xs|
  {
    if xs == [] then [] else CumSum(xs[..|xs| - 1]) + [Sum(xs)]
  }

  lemma {:induction false} CumSumAt(xs: seq<int>, i: nat)
    requires i < |xs|
    ensures CumSum(xs)[i] == Sum(xs[..i + 1])
  {
    var init := xs[..|xs| - 1];
    if i < |xs| - 1 {
      CumSumAt(init, i);
      assert init[..i + 1] == xs[..i + 1];
    } else {
      assert xs[..i + 1] == xs;
    }
  }

  /** The running count of separator flags over the first `c` positions is
      the number of separators before `c`. */
  lemma {:induction false} SumFlagsCountsSeparators(row: seq<int>, split: int, c: nat)
    requires c <= |row|
    ensures Sum(SeparatorFlags(row, split)[..c]) == SeparatorsBefore(row, split, c)
  {
    var flags := SeparatorFlags(row, split);
    if c > 0 {
      SumFlagsCountsSeparators(row, split, c - 1);
      SeparatorsStep(row, split, c - 1);
      assert flags[..c][..c - 1] == flags[..c - 1];
    }
  }

  /** The sequence ids of one row, as `get_sequence_id_from_batch` computes
      them: cumulative separator count, shifted right by one in EOS mode
      (the shift concatenates a zero column with all but the last column). */
  function RowSequenceIds(row: seq<int>, split: int, bosMode: bool): seq<int>
  {
    var cumulative := CumSum(SeparatorFlags(row, split));
    if bosMode then cumulative
    else [0] + (if |cumulative| == 0 then [] else cumulative[..|cumulative| - 1])
  }

  /** Width of the sequence-id rows: the input width, except that in EOS mode
      an empty row still receives the zero column. */
  function IdWidth(width: nat, bosMode: bool): nat
  {
    if bosMode || width > 0 then width else 1
  }

  /** In BOS mode id `c` counts the separators at positions `<= c`; in EOS
      mode it counts those at positions `< c` (so id 0 is 0). */
  lemma {:induction false} RowSequenceIdsCount(row: seq<int>, split: int, bosMode: bool)
    ensures |RowSequenceIds(row, split, bosMode)| == IdWidth(|row|, bosMode)
    ensures forall c :: 0 <= c < |RowSequenceIds(row, split, bosMode)| ==>
              RowSequenceIds(row, split, bosMode)[c]
              == SeparatorsBefore(row, split, if bosMode then c + 1 else c)
  {
    var flags := SeparatorFlags(row, split);
    var cumulative := CumSum(flags);
    var ids := RowSequenceIds(row, split, bosMode);
    forall c | 0 <= c < |ids|
      ensures ids[c] == SeparatorsBefore(row, split, if bosMode then c + 1 else c)
    {
      if bosMode {
        CumSumAt(flags, c);
        SumFlagsCountsSeparators(row, split, c + 1);
      } else if c == 0 {
        SumFlagsCountsSeparators(row, split, 0);
      } else {
        CumSumAt(flags, c - 1);
        SumFlagsCountsSeparators(row, split, c);
      }
    }
  }

  /** Each row of ids starts at 0 or 1, never decreases, grows by at most one
      per position, and never exceeds the row length. */
  lemma RowSequenceIdsSteps(row: seq<int>, split: int, bosMode: bool)
    ensures var ids := RowSequenceIds(row, split, bosMode);
            && (forall c :: 0 <= c < |ids| ==> 0 <= ids[c] <= |row|)
            && (forall c :: 0 < c < |ids| ==> ids[c - 1] <= ids[c] <= ids[c - 1] + 1)
            && (|ids| > 0 ==> ids[0] == (if bosMode && row[0] == split then 1 else 0))
  {
    var ids := RowSequenceIds(row, split, bosMode);
    RowSequenceIdsCount(row, split, bosMode);
    forall c | 0 <= c < |ids|
      ensures 0 <= ids[c] <= |row|
    {
      SeparatorsBound(row, split, if bosMode then c + 1 else c);
    }
    forall c | 0 < c < |ids|
      ensures ids[c - 1] <= ids[c] <= ids[c - 1] + 1
    {
      SeparatorsStep(row, split, if bosMode then c else c - 1);
    }
    if |ids| > 0 {
      if bosMode {
        SeparatorsStep(row, split, 0);
        SeparatorsBound(row, split, 0);
      } else {
        SeparatorsBound(row, split, 0);
      }
    }
  }

  /** The ids of every row of a matrix of token ids whose rows have `width` columns. */
  function GridSequenceIds(grid: seq<seq<int>>, width: nat, split: int, bosMode: bool): (ids: seq<seq<int>>)
    requires Uniform(grid, width)
    ensures |ids| == |grid| && Uniform(ids, IdWidth(width, bosMode))
  {
    var ids := seq(|grid|, r requires 0 <= r < |grid| => RowSequenceIds(grid[r], split, bosMode));
    assert Uniform(ids, IdWidth(width, bosMode)) by {
      forall r | 0 <= r < |grid| ensures |ids[r]| == IdWidth(width, bosMode) {
        RowSequenceIdsCount(grid[r], split, bosMode);
      }
    }
    ids
  }

  /** Position `c` of every slice of one sample: the elements the running
      sum along the second axis adds up. */
  function Column(texts: seq<seq<int>>, c: nat): (col: seq<int>)
    requires forall j :: 0 <= j < |texts| ==> c < |texts[j]|
    ensures |col| == |texts|
    ensures forall j :: 0 <= j < |col| ==> col[j] == texts[j][c]
  {
    seq(|texts|, j requires 0 <= j < |texts| => texts[j][c])
  }

  /** `cumsum(dim=1)` of the separator flags of one sample of a tensor with
      three or more axes: the running count goes along the second axis, the
      slices `texts[j]`, separately for every position `c` inside them. */
  function AxisOneSequenceIds(texts: seq<seq<int>>, w: nat, split: int): (ids: seq<seq<int>>)
    requires Uniform(texts, w)
    ensures |ids| == |texts| && Uniform(ids, w)
  {
    var sums := seq(w, c requires 0 <= c < w => CumSum(SeparatorFlags(Column(texts, c), split)));
    seq(|texts|, j requires 0 <= j < |texts| => seq(w, c requires 0 <= c < w => sums[c][j]))
  }

  /** Entry `[j][c]` counts the slices `j' <= j` whose position `c` holds the
      separator. */
  lemma AxisOneSequenceIdsCount(texts: seq<seq<int>>, w: nat, split: int)
    requires Uniform(texts, w)
    ensures forall j, c :: 0 <= j < |texts| && 0 <= c < w ==>
              AxisOneSequenceIds(texts, w, split)[j][c] == SeparatorsBefore(Column(texts, c), split, j + 1)
  {
    forall j, c | 0 <= j < |texts| && 0 <= c < w
      ensures AxisOneSequenceIds(texts, w, split)[j][c] == SeparatorsBefore(Column(texts, c), split, j + 1)
    {
      var col := Column(texts, c);
      CumSumAt(SeparatorFlags(col, split), j);
      SumFlagsCountsSeparators(col, split, j + 1);
    }
  }

  /** `get_sequence_id_from_batch`.  `input_ids` must be present (KeyError)
      and have a second axis (IndexError from `cumsum(dim=1)`).  On a matrix
      the result has the input's row count, the input's width (one column for
      an empty EOS row), and entry `[r][c]` counts the separators of row `r`
      up to and including `c` (BOS) or strictly before `c` (EOS).  With three
      or more axes the EOS shift cannot concatenate the 2-D zero column
      (RuntimeError), while BOS mode returns the running sum along the second
      axis unchanged: entry `[i][j][c]` counts the slices `j' <= j` of sample
      `i` holding the separator at position `c`. */
  function SequenceIdFromBatch(collator: Collator, batch: map<string, Tensor>): (r: Result<Tensor>)
    ensures "input_ids" !in batch ==> r == Err(KeyError("input_ids"))
    ensures "input_ids" in batch && |batch["input_ids"].shape| < 2 ==> r.Err? && r.error.IndexError?
    ensures "input_ids" in batch && |batch["input_ids"].shape| == 2 ==>
      var ids := batch["input_ids"];
      && r.Ok?
      && r.value.shape == [ids.shape[0], IdWidth(ids.shape[1], collator.bosMode)]
      && (forall row, c :: 0 <= row < ids.shape[0] && 0 <= c < |Grid(r.value)[row]| ==>
            Grid(r.value)[row][c]
            == SeparatorsBefore(Grid(ids)[row], collator.splitTokenId, if collator.bosMode then c + 1 else c))
    ensures "input_ids" in batch && |batch["input_ids"].shape| > 2 && !collator.bosMode ==>
      r.Err? && r.error.RuntimeError?
    ensures "input_ids" in batch && |batch["input_ids"].shape| > 2 && collator.bosMode ==>
      var ids := batch["input_ids"];
      && r.Ok?
      && r.value.shape == ids.shape
      && (forall i, j, c :: 0 <= i < ids.shape[0] && 0 <= j < ids.shape[1] && 0 <= c < TailSize(ids) ==>
            Cube(r.value)[i][j][c] == SeparatorsBefore(Column(Cube(ids)[i], c), collator.splitTokenId, j + 1))
  {
    if "input_ids" !in batch then Err(KeyError("input_ids"))
    else
      var ids := batch["input_ids"];
      if |ids.shape| < 2 then Err(IndexError("dimension out of range"))
      else if |ids.shape| > 2 && !collator.bosMode then
        Err(RuntimeError("tensors must have the same number of dimensions"))
      else if |ids.shape| > 2 then
        var cube := Cube(ids);
        var w := TailSize(ids);
        var idCube := seq(ids.shape[0], i requires 0 <= i < ids.shape[0] =>
          AxisOneSequenceIds(cube[i], w, collator.splitTokenId));
        assert forall i :: 0 <= i < ids.shape[0] ==>
          forall j, c :: 0 <= j < ids.shape[1] && 0 <= c < w ==>
            idCube[i][j][c] == SeparatorsBefore(Column(cube[i], c), collator.splitTokenId, j + 1)
        by {
          forall i | 0 <= i < ids.shape[0] {
            AxisOneSequenceIdsCount(cube[i], w, collator.splitTokenId);
          }
        }
        Ok(FromCube(idCube, ids.shape))
      else
        var grid := Grid(ids);
        var width := IdWidth(ids.shape[1], collator.bosMode);
        var idGrid := GridSequenceIds(grid, ids.shape[1], collator.splitTokenId, collator.bosMode);
        assert forall row :: 0 <= row < |grid| ==> |idGrid[row]| == width;
        assert forall row :: 0 <= row < |grid| ==>
          forall c :: 0 <= c < |idGrid[row]| ==>
            idGrid[row][c] == SeparatorsBefore(grid[row], collator.splitTokenId, if collator.bosMode then c + 1 else c)
        by {
          forall row | 0 <= row < |grid| {
            RowSequenceIdsCount(grid[row], collator.splitTokenId, collator.bosMode);
          }
        }
        Ok(Matrix(idGrid, width))
  }

  /** `__call__` on the batch the base collator returned: on success the
      batch gains exactly the `sequence_id` entry and every other entry is
      unchanged; on failure it is left as it was. */
  method Call(collator: Collator, batch: Batch) returns (outcome: Outcome)
    modifies batch
    ensures match SequenceIdFromBatch(collator, old(batch.entries))
            case Ok(ids) =>
              && outcome == Pass
              && batch.entries == old(batch.entries)["sequence_id" := ids]
            case Err(e) =>
              && outcome == Fail(e)
              && batch.entries == old(batch.entries)
    ensures outcome.Pass? ==> batch.entries.Keys == old(batch.entries).Keys + {"sequence_id"}
    ensures forall k :: k in old(batch.entries) && k != "sequence_id" ==>
              k in batch.entries && batch.entries[k] == old(batch.entries)[k]
  {
    var ids := SequenceIdFromBatch(collator, batch.entries);
    match ids {
      case Ok(t) =>
        batch.entries := batch.entries["sequence_id" := t];
        outcome := Pass;
      case Err(e) =>
        outcome := Fail(e);
    }
  }

  /* ---------------- ids of grouped texts ---------------- */

  /* On a batch of grouped texts `(samples, texts, length)` the wrapper
     evidently means the running separator count along the tokens of every
     text, the way a matrix row is counted, instead of the count across
     texts that `cumsum(dim=1)` produces on three axes. */

  /** The corrected ids: the row computation of the 2-D case applied to
      every text `ids[i][j]`. */
  function PerTextSequenceIds(collator: Collator, ids: Tensor): (r: Tensor)
    requires |ids.shape| == 3
    ensures r.shape == [ids.shape[0], ids.shape[1], IdWidth(ids.shape[2], collator.bosMode)]
    ensures forall i, j, c ::
              0 <= i < ids.shape[0] && 0 <= j < ids.shape[1] && 0 <= c < IdWidth(ids.shape[2], collator.bosMode) ==>
              Planes(r)[i][j][c]
              == SeparatorsBefore(Planes(ids)[i][j], collator.splitTokenId, if collator.bosMode then c + 1 else c)
  {
    var d1, d2, d3 := ids.shape[0], ids.shape[1], ids.shape[2];
    var w := IdWidth(d3, collator.bosMode);
    var planes := Planes(ids);
    var idPlanes := seq(d1, i requires 0 <= i < d1 => GridSequenceIds(planes[i], d3, collator.splitTokenId, collator.bosMode));
    var shape := [d1, d2, w];
    assert Product(shape[2..]) == w by {
      assert shape[2..] == [w];
      assert [w][1..] == [];
    }
    var r := FromCube(idPlanes, shape);
    CubeIsPlanes(r);
    assert forall i, j :: 0 <= i < d1 && 0 <= j < d2 ==>
      forall c :: 0 <= c < w ==>
        idPlanes[i][j][c] == SeparatorsBefore(planes[i][j], collator.splitTokenId, if collator.bosMode then c + 1 else c)
    by {
      forall i, j | 0 <= i < d1 && 0 <= j < d2 {
        RowSequenceIdsCount(planes[i][j], collator.splitTokenId, collator.bosMode);
      }
    }
    r
  }

  /** The wrapper as written, in BOS mode on three axes: when a text opens
      with the separator and its next token is an ordinary one, that token
      gets id 0, because only position 1 of the earlier texts is counted;
      counted along the text it belongs to sequence 1. */
  lemma BosIdsRunAcrossTexts(collator: Collator, batch: map<string, Tensor>)
    requires collator.bosMode && "input_ids" in batch
    requires |batch["input_ids"].shape| == 3
    requires batch["input_ids"].shape[0] >= 1 && batch["input_ids"].shape[1] >= 1 && batch["input_ids"].shape[2] >= 2
    requires Planes(batch["input_ids"])[0][0][0] == collator.splitTokenId
    requires Planes(batch["input_ids"])[0][0][1] != collator.splitTokenId
    ensures SequenceIdFromBatch(collator, batch).Ok?
    ensures Planes(SequenceIdFromBatch(collator, batch).value)[0][0][1] == 0
    ensures Planes(PerTextSequenceIds(collator, batch["input_ids"]))[0][0][1] == 1
  {
    var ids := batch["input_ids"];
    var split := collator.splitTokenId;
    var r := SequenceIdFromBatch(collator, batch).value;
    CubeIsPlanes(ids);
    CubeIsPlanes(r);
    assert TailSize(ids) == ids.shape[2] by {
      assert ids.shape[2..] == [ids.shape[2]];
      assert [ids.shape[2]][1..] == [];
    }
    var col := Column(Cube(ids)[0], 1);
    SeparatorsBound(col, split, 0);
    SeparatorsStep(col, split, 0);
    var row := Planes(ids)[0][0];
    SeparatorsBound(row, split, 0);
    SeparatorsStep(row, split, 0);
    SeparatorsStep(row, split, 1);
  }

  /** The corrected ids are the ids the wrapper computes on the batch after
      the model merges samples and texts into rows of `(samples * texts,
      length)`: text `j` of sample `i` is row `i * texts + j` of both. */
  lemma TextSequenceIdsAreMergedRowIds(collator: Collator, ids: Tensor, merged: Tensor, i: nat, j: nat)
    requires |ids.shape| == 3 && i < ids.shape[0] && j < ids.shape[1]
    requires Reshape(ids, [ids.shape[0] * ids.shape[1], ids.shape[2]]) == Ok(merged)
    ensures i * ids.shape[1] + j < ids.shape[0] * ids.shape[1]
    ensures SequenceIdFromBatch(collator, map["input_ids" := merged]).Ok?
    ensures Grid(SequenceIdFromBatch(collator, map["input_ids" := merged]).value)[i * ids.shape[1] + j]
            == Planes(PerTextSequenceIds(collator, ids))[i][j]
  {
    var d1, d2, d3 := ids.shape[0], ids.shape[1], ids.shape[2];
    ProductOfTwo(d1 * d2, d3);
    var r := SequenceIdFromBatch(collator, map["input_ids" := merged]).value;
    var t := PerTextSequenceIds(collator, ids);
    var w := IdWidth(d3, collator.bosMode);
    var m := i * d2 + j;
    MergedRowAt(ids, i, j);
    assert Grid(merged) == Chunks(ids.data, d3, d1 * d2);
    assert Grid(merged)[m] == Planes(ids)[i][j];
    assert |Grid(r)[m]| == w == |Planes(t)[i][j]|;
    forall c | 0 <= c < w ensures Grid(r)[m][c] == Planes(t)[i][j][c] {
    }
  }
}
