/** The streaming pairs dataset, up to the list of strings it hands to the
    tokenizer: how the extra keyword arguments are read when the dataset is
    built, and how one stored sample becomes the texts of its query and
    passages. */
module PairsDataset {
  import opened Wrappers
  import opened ConfigValues

  /** The keyword arguments the dataset consumes; any other is an error. */
  const KnownOptions: set<string> := {"group_method", "append_eos_token", "prepend_query", "prepend_passage"}

  /** The text-shaping options kept by the dataset: the token appended to
      every text (the tokenizer's EOS string or nothing) and the prefixes put
      before queries and before passages. */
  datatype PairsDataset = PairsDataset(
    appendEosToken: ConfigValue,
    appendToken: string,
    prependQuery: string,
    prependPassage: string)

  /** `kwargs.pop(key, default)`, read for its value. */
  function KwargOr(kwargs: map<string, ConfigValue>, key: string, default: ConfigValue): ConfigValue
  {
    if key in kwargs then kwargs[key] else default
  }

  /** The keyword-argument handling of the constructor.  A `group_method`
      other than None raises NotImplementedError; then any keyword outside
      the four known ones raises ValueError.  Otherwise the append token is
      the tokenizer's EOS string exactly when `append_eos_token` is truthy,
      and the prefixes are `str()` of the given values ('' by default). */
  function NewPairsDataset(kwargs: map<string, ConfigValue>, eosToken: string): (r: Result<PairsDataset>)
    ensures (r.Err? && r.error.NotImplementedError?)
            <==> KwargOr(kwargs, "group_method", NoneValue) != NoneValue
    ensures (r.Err? && r.error.ValueError?)
            <==> KwargOr(kwargs, "group_method", NoneValue) == NoneValue && !(kwargs.Keys <= KnownOptions)
    ensures r.Err? ==> r.error.NotImplementedError? || r.error.ValueError?
    ensures r.Ok? ==> r.value.appendToken
                      == if Truthy(KwargOr(kwargs, "append_eos_token", NoneValue)) then eosToken else ""
    ensures r.Ok? ==> r.value.prependQuery == Str(KwargOr(kwargs, "prepend_query", Text("")))
    ensures r.Ok? ==> r.value.prependPassage == Str(KwargOr(kwargs, "prepend_passage", Text("")))
  {
    if KwargOr(kwargs, "group_method", NoneValue) != NoneValue then
      Err(NotImplementedError("group_method is deprecated"))
    else if exists k :: k in kwargs && k !in KnownOptions then
      Err(ValueError("unexpected keyword argument"))
    else
      var appendEos := KwargOr(kwargs, "append_eos_token", NoneValue);
      Ok(PairsDataset(
        appendEos,
        if Truthy(appendEos) then eosToken else "",
        Str(KwargOr(kwargs, "prepend_query", Text(""))),
        Str(KwargOr(kwargs, "prepend_passage", Text("")))))
  }

  /** A stored sample: its columns, in order, each with its text.  The
      sample is a dictionary, so a column name occurs at most once
      (`DistinctColumns`); the column loop and the lemmas about it do not
      need that. */
  type Sample = seq<(string, string)>

  /** No column name repeats. */
  predicate DistinctColumns(sample: Sample)
  {
    forall i, j :: 0 <= i < j < |sample| ==> sample[i].0 != sample[j].0
  }

  predicate StartsWith(s: string, prefix: string)
  {
    |prefix| <= |s| && s[..|prefix|] == prefix
  }

  /** A column holding a query (`text_a...`) or a passage (`text_b...`). */
  predicate IsPairColumn(key: string)
  {
    StartsWith(key, "text_a") || StartsWith(key, "text_b")
  }

  /** `sample[key]`: the value of the column named `key`, if any. */
  function Lookup(sample: Sample, key: string): Option<string>
  {
    if sample == [] then None
    else if sample[0].0 == key then Some(sample[0].1)
    else Lookup(sample[1..], key)
  }

  /** On a sample without repeated column names, `Lookup` is the dictionary
      lookup: it yields a value exactly when the sample holds that column
      with that value. */
  lemma {:induction false} LookupIsDictLookup(sample: Sample, key: string, value: string)
    requires DistinctColumns(sample)
    ensures Lookup(sample, key) == Some(value) <==> exists i :: 0 <= i < |sample| && sample[i] == (key, value)
  {
    if sample != [] {
      var rest := sample[1..];
      assert DistinctColumns(rest) by {
        forall i, j | 0 <= i < j < |rest| ensures rest[i].0 != rest[j].0 {
          assert rest[i] == sample[i + 1] && rest[j] == sample[j + 1];
        }
      }
      LookupIsDictLookup(rest, key, value);
      if exists i :: 0 <= i < |sample| && sample[i] == (key, value) {
        var i :| 0 <= i < |sample| && sample[i] == (key, value);
        if i > 0 {
          assert rest[i - 1] == (key, value);
        }
      }
      if exists i :: 0 <= i < |rest| && rest[i] == (key, value) {
        var i :| 0 <= i < |rest| && rest[i] == (key, value);
        assert sample[i + 1] == (key, value);
      }
    }
  }

  function QueryText(ds: PairsDataset, text: string): string
  {
    ds.prependQuery + text + ds.appendToken
  }

  function PassageText(ds: PairsDataset, text: string): string
  {
    ds.prependPassage + text + ds.appendToken
  }

  /** What the column loop appends for one column: the two `if`s of the
      loop body, one for `text_a` columns and one for `text_b` columns. */
  function ColumnTexts(ds: PairsDataset, key: string, value: string): seq<string>
  {
    (if StartsWith(key, "text_a") then [QueryText(ds, value)] else [])
    + (if StartsWith(key, "text_b") then [PassageText(ds, value)] else [])
  }

  /** A column yields one text if it is a query or passage column, and none
      otherwise; no column is both. */
  lemma ColumnTextsCases(ds: PairsDataset, key: string, value: string)
    ensures StartsWith(key, "text_a") ==> ColumnTexts(ds, key, value) == [QueryText(ds, value)]
    ensures StartsWith(key, "text_b") ==> ColumnTexts(ds, key, value) == [PassageText(ds, value)]
    ensures !IsPairColumn(key) ==> ColumnTexts(ds, key, value) == []
  {
  }

  /** The texts the column loop collects over `sample`, in column order. */
  function PairColumnTexts(ds: PairsDataset, sample: Sample): seq<string>
  {
    if sample == [] then []
    else
      var last := sample[|sample| - 1];
      PairColumnTexts(ds, sample[..|sample| - 1]) + ColumnTexts(ds, last.0, last.1)
  }

  /** The column loop keeps the sample's order: the texts of a split sample
      are the texts of its first part followed by those of its second. */
  lemma {:induction false} PairColumnTextsAppend(ds: PairsDataset, first: Sample, second: Sample)
    ensures PairColumnTexts(ds, first + second) == PairColumnTexts(ds, first) + PairColumnTexts(ds, second)
  {
    if second != [] {
      var s := first + second;
      assert s[..|s| - 1] == first + second[..|second| - 1];
      assert s[|s| - 1] == second[|second| - 1];
      PairColumnTextsAppend(ds, first, second[..|second| - 1]);
    } else {
      assert first + second == first;
    }
  }

  /** The column loop yields one text per query or passage column, so it
      yields nothing exactly when the sample has no such column. */
  lemma {:induction false} PairColumnTextsEmpty(ds: PairsDataset, sample: Sample)
    ensures PairColumnTexts(ds, sample) == [] <==> forall i :: 0 <= i < |sample| ==> !IsPairColumn(sample[i].0)
  {
    if sample != [] {
      var init := sample[..|sample| - 1];
      var last := sample[|sample| - 1];
      PairColumnTextsEmpty(ds, init);
      ColumnTextsCases(ds, last.0, last.1);
      assert forall i :: 0 <= i < |init| ==> init[i] == sample[i];
    }
  }

  /** The passage texts of the decoded hard negatives, in order. */
  function NegativeTexts(ds: PairsDataset, negatives: seq<string>): seq<string>
  {
    if negatives == [] then []
    else NegativeTexts(ds, negatives[..|negatives| - 1]) + [PassageText(ds, negatives[|negatives| - 1])]
  }

  lemma {:induction false} NegativeTextsAt(ds: PairsDataset, negatives: seq<string>)
    ensures |NegativeTexts(ds, negatives)| == |negatives|
    ensures forall i :: 0 <= i < |negatives| ==> NegativeTexts(ds, negatives)[i] == PassageText(ds, negatives[i])
  {
    if negatives != [] {
      var init := negatives[..|negatives| - 1];
      NegativeTextsAt(ds, init);
      assert forall i :: 0 <= i < |init| ==> init[i] == negatives[i];
    }
  }

  /** The second sample format, used when no column is a query or passage
      column: query, positive passage, then every hard negative.  Each of
      `query_text`, `positive_passage` and `negative_passages` is looked up
      (KeyError when missing) only while the previous ones are non-empty; an
      empty one ends the fallback with no texts.  `negatives` is what
      unpickling `negative_passages` yields. */
  function FallbackTexts(ds: PairsDataset, sample: Sample, negatives: seq<string>): Result<seq<string>>
  {
    match Lookup(sample, "query_text")
    case None => Err(KeyError("query_text"))
    case Some(query) =>
      if query == "" then Ok([])
      else
        match Lookup(sample, "positive_passage")
        case None => Err(KeyError("positive_passage"))
        case Some(positive) =>
          if positive == "" then Ok([])
          else
            match Lookup(sample, "negative_passages")
            case None => Err(KeyError("negative_passages"))
            case Some(pickled) =>
              if pickled == "" then Ok([])
              else Ok([QueryText(ds, query), PassageText(ds, positive)] + NegativeTexts(ds, negatives))
  }

  /** The texts of one sample, as `__getitem__` builds them before tokenizing. */
  function TextSamples(ds: PairsDataset, sample: Sample, negatives: seq<string>): Result<seq<string>>
  {
    var texts := PairColumnTexts(ds, sample);
    if texts != [] then Ok(texts) else FallbackTexts(ds, sample, negatives)
  }

  /** A sample with a query or passage column yields its column texts, and
      the fallback columns are never read. */
  lemma PairColumnsWin(ds: PairsDataset, sample: Sample, negatives: seq<string>, i: nat)
    requires i < |sample| && IsPairColumn(sample[i].0)
    ensures TextSamples(ds, sample, negatives) == Ok(PairColumnTexts(ds, sample))
    ensures PairColumnTexts(ds, sample) != []
  {
    PairColumnTextsEmpty(ds, sample);
  }

  /** Without query or passage columns, and with a non-empty query, positive
      passage and pickled negative list, the texts are the query, the
      positive passage and the `k` negatives: `2 + k` texts, each with its
      prefix and the append token. */
  lemma FallbackAssembly(ds: PairsDataset, sample: Sample, negatives: seq<string>,
                         query: string, positive: string, pickled: string)
    requires forall i :: 0 <= i < |sample| ==> !IsPairColumn(sample[i].0)
    requires Lookup(sample, "query_text") == Some(query) && query != ""
    requires Lookup(sample, "positive_passage") == Some(positive) && positive != ""
    requires Lookup(sample, "negative_passages") == Some(pickled) && pickled != ""
    ensures TextSamples(ds, sample, negatives).Ok?
    ensures var texts := TextSamples(ds, sample, negatives).value;
            && |texts| == 2 + |negatives|
            && texts[0] == ds.prependQuery + query + ds.appendToken
            && texts[1] == ds.prependPassage + positive + ds.appendToken
            && forall i :: 0 <= i < |negatives| ==>
                 texts[2 + i] == ds.prependPassage + negatives[i] + ds.appendToken
  {
    PairColumnTextsEmpty(ds, sample);
    NegativeTextsAt(ds, negatives);
  }

  /** The fallback produces texts only when there is no query or passage
      column and all three fallback columns are present and non-empty. */
  lemma FallbackOnlyWhenComplete(ds: PairsDataset, sample: Sample, negatives: seq<string>)
    requires forall i :: 0 <= i < |sample| ==> !IsPairColumn(sample[i].0)
    requires TextSamples(ds, sample, negatives).Ok? && TextSamples(ds, sample, negatives).value != []
    ensures Lookup(sample, "query_text").Some? && Lookup(sample, "query_text").value != ""
    ensures Lookup(sample, "positive_passage").Some? && Lookup(sample, "positive_passage").value != ""
    ensures Lookup(sample, "negative_passages").Some? && Lookup(sample, "negative_passages").value != ""
  {
    PairColumnTextsEmpty(ds, sample);
  }

  /** `__getitem__` up to tokenization: the column loop, then the fallback
      with its loop over the negatives, appending to one list. */
  method GetItemTexts(ds: PairsDataset, sample: Sample, negatives: seq<string>)
    returns (r: Result<seq<string>>)
    ensures r == TextSamples(ds, sample, negatives)
  {
    var texts: seq<string> := [];
    var i := 0;
    while i < |sample|
      invariant 0 <= i <= |sample|
      invariant texts == PairColumnTexts(ds, sample[..i])
    {
      var (key, value) := sample[i];
      assert sample[..i + 1][..i] == sample[..i];
      if StartsWith(key, "text_a") {
        texts := texts + [QueryText(ds, value)];
      }
      if StartsWith(key, "text_b") {
        texts := texts + [PassageText(ds, value)];
      }
      i := i + 1;
    }
    assert sample[..i] == sample;
    if |texts| == 0 {
      var query := Lookup(sample, "query_text");
      if query.None? {
        return Err(KeyError("query_text"));
      }
      if query.value != "" {
        var positive := Lookup(sample, "positive_passage");
        if positive.None? {
          return Err(KeyError("positive_passage"));
        }
        if positive.value != "" {
          var pickled := Lookup(sample, "negative_passages");
          if pickled.None? {
            return Err(KeyError("negative_passages"));
          }
          if pickled.value != "" {
            texts := texts + [QueryText(ds, query.value)];
            texts := texts + [PassageText(ds, positive.value)];
            var j := 0;
            while j < |negatives|
              invariant 0 <= j <= |negatives|
              invariant texts == [QueryText(ds, query.value), PassageText(ds, positive.value)]
                                 + NegativeTexts(ds, negatives[..j])
            {
              assert negatives[..j + 1][..j] == negatives[..j];
              texts := texts + [PassageText(ds, negatives[j])];
              j := j + 1;
            }
            assert negatives[..j] == negatives;
          }
        }
      }
    }
    return Ok(texts);
  }
}
