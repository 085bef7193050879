/**
 * SkyflowClient.Tokenize (lambda/skyflow.go): every well-formed row is its
 * own work item (no deduplication), the items are split into sub-batches,
 * each sub-batch is sent once, and each row receives its sub-batch's token
 * for its position or its sub-batch's error. The goroutines of the source
 * write disjoint result slots, so they are run here one after another.
 */
module Tokenizer {
  import opened Wrappers
  import opened Rows
  import opened Chunking
  import opened Vault
  import opened Assembly
  import opened Metrics
  import opened Slots

  /** The sub-batches Tokenize sends. */
  function TokenizeBatches(cfg: SkyflowConfig, rows: seq<seq<Value>>, show: Value -> string): seq<seq<Item>>
    requires ValidConfig(cfg)
  {
    Chunks(Items(rows, show), cfg.batchSize)
  }

  /** tokenizeBatch as the call Tokenize makes for each sub-batch. */
  function TokenizeCall(cfg: SkyflowConfig, post: Post<TokenizeRequest, TokenizeResponse>)
    : (call: seq<Item> -> Result<seq<string>, BatchError>)
    ensures Sized(call)
  {
    batch => TokenizeBatch(cfg, batch, post)
  }

  /** The outcome of every sub-batch. */
  function TokenizeOutcomes(cfg: SkyflowConfig, batches: seq<seq<Item>>, post: Post<TokenizeRequest, TokenizeResponse>)
    : (outcomes: seq<Result<seq<string>, BatchError>>)
    ensures Fits(batches, outcomes)
  {
    Outcomes(TokenizeCall(cfg, post), batches)
  }

  /**
   * The rows Tokenize returns: a malformed row i becomes [i, MissingValue];
   * the well-formed row i, which is item Rank(rows, show, i), gets that
   * item's text.
   */
  function TokenizeOutput(cfg: SkyflowConfig, rows: seq<seq<Value>>, show: Value -> string,
                          post: Post<TokenizeRequest, TokenizeResponse>): (out: seq<OutRow>)
    requires ValidConfig(cfg)
    ensures |out| == |rows|
  {
    var batches := TokenizeBatches(cfg, rows, show);
    var texts := Texts(batches, TokenizeOutcomes(cfg, batches, post));
    ChunksConcat(Items(rows, show), cfg.batchSize);
    seq(|rows|, i requires 0 <= i < |rows| =>
      if !WellFormed(rows[i]) then OutRow(Position(i), MissingValue)
      else ItemAt(rows, show, i); OutRow(RowKey(rows[i][0]), texts[Rank(rows, show, i)]))
  }

  /** The metrics Tokenize reports (without DedupPct and SkyflowWallMs). */
  function TokenizeMetrics(cfg: SkyflowConfig, rows: seq<seq<Value>>, show: Value -> string,
                           post: Post<TokenizeRequest, TokenizeResponse>, callMs: nat -> nat): SkyflowMetrics
    requires ValidConfig(cfg)
  {
    var batches := TokenizeBatches(cfg, rows, show);
    var counted := InitialMetrics(|rows|).(uniqueTokens := |Items(rows, show)|, skyflowCalls := |batches|,
                                          errors := Failures(TokenizeOutcomes(cfg, batches, post)));
    LatencyStats(counted, Latencies(callMs, |batches|))
  }

  /**
   * Tokenize: normalise the rows, split the items, call the vault once per
   * sub-batch and write every result back at its row's original position.
   */
  method Tokenize(cfg: SkyflowConfig, rows: seq<seq<Value>>, show: Value -> string,
                  post: Post<TokenizeRequest, TokenizeResponse>, callMs: nat -> nat)
    returns (out: seq<OutRow>, metrics: SkyflowMetrics)
    requires ValidConfig(cfg)
    ensures out == TokenizeOutput(cfg, rows, show, post)
    ensures metrics == TokenizeMetrics(cfg, rows, show, post, callMs)
  {
    var n := |rows|;
    var result := new OutRow[n];
    metrics := InitialMetrics(n);

    var items := NormalizeRows(rows, show, result);
    metrics := metrics.(uniqueTokens := |items|);

    var batches := Split(items, cfg.batchSize);
    metrics := metrics.(skyflowCalls := |batches|);

    ChunksConcat(items, cfg.batchSize);
    var errors, latencies := Dispatch(TokenizeCall(cfg, post), rows, show, items, batches, callMs, result);
    metrics := metrics.(errors := errors);
    metrics := ComputeLatencyStats(metrics, latencies);
    out := result[..];
    TokenizeAssembled(cfg, rows, show, post, out);
  }

  /**
   * The dispatch loop of Tokenize: sub-batch k is sent, its latency
   * recorded, a failure counted, and its answers written to the rows of its
   * items. The source runs the sub-batches as goroutines writing disjoint
   * slots; here they run in order.
   */
  method Dispatch(call: seq<Item> -> Result<seq<string>, BatchError>, rows: seq<seq<Value>>, show: Value -> string,
                  items: seq<Item>, batches: seq<seq<Item>>, callMs: nat -> nat, result: array<OutRow>)
    returns (errors: nat, latencies: seq<nat>)
    requires Sized(call) && Concat(batches) == items
    requires Ascending(items) && FromRows(rows, show, items)
    requires Placeholders(result[..], rows)
    modifies result
    ensures latencies == Latencies(callMs, |batches|)
    ensures errors == Failures(Outcomes(call, batches))
    ensures Placeholders(result[..], rows)
    ensures Progress(result[..], items, batches, Outcomes(call, batches), |batches|)
    ensures OnlyAt(old(result[..]), result[..], items)
  {
    ghost var outcomes := Outcomes(call, batches);
    ghost var initial := result[..];
    errors, latencies := 0, [];
    for k := 0 to |batches|
      invariant latencies == Latencies(callMs, k)
      invariant errors == Failures(outcomes[..k])
      invariant Placeholders(result[..], rows)
      invariant Progress(result[..], items, batches, outcomes, k)
      invariant OnlyAt(initial, result[..], items)
    {
      var batch := batches[k];
      var tokens := call(batch);
      latencies := latencies + [callMs(k)];
      FailuresSnoc(outcomes, k);
      if tokens.Err? {
        errors := errors + 1;
      }
      BatchTargets(rows, show, items, batches, k);
      ghost var before := result[..];
      StoreTokenized(result, batch, tokens);
      Advance(rows, show, items, batches, outcomes, initial, before, result[..], k);
    }
    assert outcomes[..|batches|] == outcomes;
  }

  /** The first `count` items hold their texts at their original positions in `s`. */
  ghost predicate Placed(s: seq<OutRow>, items: seq<Item>, texts: seq<string>, count: nat)
  {
    && count <= |items| && count <= |texts|
    && forall p | 0 <= p < count ::
         items[p].origIdx < |s| && s[items[p].origIdx] == OutRow(RowKey(items[p].rowKey), texts[p])
  }

  /** The first k sub-batches of `items` have their answers in `s`. */
  ghost predicate Progress<T>(s: seq<OutRow>, items: seq<Item>, batches: seq<seq<T>>,
                              outcomes: seq<Result<seq<string>, BatchError>>, k: nat)
  {
    && k <= |batches| && k <= |outcomes| && Fits(batches[..k], outcomes[..k])
    && Placed(s, items, Texts(batches[..k], outcomes[..k]), |Concat(batches[..k])|)
  }

  /** Every item of the sub-batch has its answer at its original position in `s`. */
  ghost predicate Stored(s: seq<OutRow>, batch: seq<Item>, outcome: Result<seq<string>, BatchError>)
  {
    && (outcome.Ok? ==> |outcome.value| == |batch|)
    && forall q | 0 <= q < |batch| ::
         batch[q].origIdx < |s| && s[batch[q].origIdx] == OutRow(RowKey(batch[q].rowKey), Answer(outcome, q))
  }

  /**
   * Storing sub-batch k keeps the placeholders, extends the placed prefix by
   * its answers, and still changes nothing outside the items' positions.
   */
  lemma Advance(rows: seq<seq<Value>>, show: Value -> string, items: seq<Item>, batches: seq<seq<Item>>,
                outcomes: seq<Result<seq<string>, BatchError>>, initial: seq<OutRow>, before: seq<OutRow>, after: seq<OutRow>, k: nat)
    requires Concat(batches) == items && Ascending(items) && FromRows(rows, show, items)
    requires Fits(batches, outcomes) && k < |batches|
    requires Placeholders(before, rows) && Progress(before, items, batches, outcomes, k)
    requires OnlyAt(initial, before, items)
    requires OnlyAt(before, after, batches[k]) && Stored(after, batches[k], outcomes[k])
    ensures Placeholders(after, rows) && Progress(after, items, batches, outcomes, k + 1)
    ensures OnlyAt(initial, after, items)
  {
    PlacedStep(rows, show, before, after, items, batches, outcomes, k);
    BatchOfItems(rows, show, items, batches, k);
    PlaceholdersKept(before, after, rows, show, batches[k]);
    FrameStep(items, batches, initial, before, after, k);
  }

  /** Storing sub-batch k after writes confined to the items keeps every write confined to the items. */
  lemma FrameStep(items: seq<Item>, batches: seq<seq<Item>>, initial: seq<OutRow>, before: seq<OutRow>, after: seq<OutRow>, k: nat)
    requires Concat(batches) == items && k < |batches|
    requires OnlyAt(initial, before, items) && OnlyAt(before, after, batches[k])
    ensures OnlyAt(initial, after, items)
  {
    ConcatSlice(items, batches, k);
    PositionsOfSlice(items, |Concat(batches[..k])|, batches[k]);
    OnlyAtWiden(initial, before, after, batches[k], items);
  }

  /** Storing sub-batch k extends the placed prefix by that sub-batch's answers. */
  lemma PlacedStep(rows: seq<seq<Value>>, show: Value -> string, before: seq<OutRow>, after: seq<OutRow>,
                   items: seq<Item>, batches: seq<seq<Item>>, outcomes: seq<Result<seq<string>, BatchError>>, k: nat)
    requires Concat(batches) == items && Ascending(items) && FromRows(rows, show, items)
    requires Fits(batches, outcomes) && k < |batches|
    requires OnlyAt(before, after, batches[k]) && Stored(after, batches[k], outcomes[k])
    requires Progress(before, items, batches, outcomes, k)
    ensures Progress(after, items, batches, outcomes, k + 1)
  {
    BatchOfItems(rows, show, items, batches, k);
    ConcatSnoc(batches, k);
    TextsSnoc(batches, outcomes, k);
    var off := |Concat(batches[..k])|;
    var doneTexts := Texts(batches[..k], outcomes[..k]);
    PlacedKept(before, after, items, doneTexts, off, batches[k]);
    PlacedBlock(after, items, doneTexts, off, batches[k], outcomes[k]);
  }

  /** Placed items outside the sub-batch keep their texts when the sub-batch is stored. */
  lemma PlacedKept(before: seq<OutRow>, after: seq<OutRow>, items: seq<Item>, texts: seq<string>, off: nat, batch: seq<Item>)
    requires Placed(before, items, texts, off) && Untouched(items, off, batch) && OnlyAt(before, after, batch)
    ensures Placed(after, items, texts, off)
  {
  }

  /** Storing the sub-batch that follows the placed prefix places its answers next. */
  lemma PlacedBlock(after: seq<OutRow>, items: seq<Item>, texts: seq<string>, off: nat, batch: seq<Item>,
                    outcome: Result<seq<string>, BatchError>)
    requires Placed(after, items, texts, off) && |texts| == off
    requires SliceAt(items, off, batch) && Stored(after, batch, outcome)
    ensures Placed(after, items, texts + Block(outcome, |batch|), off + |batch|)
  {
    var all := texts + Block(outcome, |batch|);
    forall p | off <= p < off + |batch|
      ensures items[p].origIdx < |after| && after[items[p].origIdx] == OutRow(RowKey(items[p].rowKey), all[p])
    {
      assert items[off + (p - off)] == batch[p - off];
    }
  }

  /** `batch` is the slice of `items` that starts at `off`. */
  ghost predicate SliceAt(items: seq<Item>, off: nat, batch: seq<Item>)
  {
    off + |batch| <= |items| && forall j | 0 <= j < |batch| :: items[off + j] == batch[j]
  }

  /** No item before `off` has a position of the sub-batch. */
  ghost predicate Untouched(items: seq<Item>, off: nat, batch: seq<Item>)
  {
    off <= |items| && forall p | 0 <= p < off :: items[p].origIdx !in Positions(batch)
  }

  /** Once every item is placed, the array holds exactly TokenizeOutput. */
  lemma TokenizeAssembled(cfg: SkyflowConfig, rows: seq<seq<Value>>, show: Value -> string,
                          post: Post<TokenizeRequest, TokenizeResponse>, out: seq<OutRow>)
    requires ValidConfig(cfg)
    requires Placeholders(out, rows)
    requires var batches := TokenizeBatches(cfg, rows, show);
      Progress(out, Items(rows, show), batches, TokenizeOutcomes(cfg, batches, post), |batches|)
    ensures out == TokenizeOutput(cfg, rows, show, post)
  {
    var items := Items(rows, show);
    var batches := TokenizeBatches(cfg, rows, show);
    var outcomes := TokenizeOutcomes(cfg, batches, post);
    assert batches[..|batches|] == batches && outcomes[..|batches|] == outcomes;
    ChunksConcat(items, cfg.batchSize);
    forall i | 0 <= i < |rows| && WellFormed(rows[i])
      ensures out[i] == TokenizeOutput(cfg, rows, show, post)[i]
    {
      ItemAt(rows, show, i);
    }
  }

  /**
   * The write-back of one Tokenize goroutine: item j of the sub-batch gets
   * [rowKey, tokens[j]], or [rowKey, "ERROR: " + err] when the call failed;
   * no other slot changes.
   */
  method StoreTokenized(result: array<OutRow>, batch: seq<Item>, tokens: Result<seq<string>, BatchError>)
    requires tokens.Ok? ==> |tokens.value| == |batch|
    requires Within(batch, result.Length) && Ascending(batch)
    modifies result
    ensures Stored(result[..], batch, tokens)
    ensures OnlyAt(old(result[..]), result[..], batch)
  {
    for j := 0 to |batch|
      invariant forall q | 0 <= q < j :: result[batch[q].origIdx] == OutRow(RowKey(batch[q].rowKey), Answer(tokens, q))
      invariant forall r | 0 <= r < result.Length && r !in Positions(batch) :: result[r] == old(result[r])
    {
      var text := if tokens.Err? then ErrorText(tokens.error) else tokens.value[j];
      result[batch[j].origIdx] := OutRow(RowKey(batch[j].rowKey), text);
    }
  }

  /**
   * The row loop of Tokenize: a row with fewer than two fields gets
   * [i, MissingValue] in place; every other row becomes an item.
   */
  method NormalizeRows(rows: seq<seq<Value>>, show: Value -> string, result: array<OutRow>) returns (items: seq<Item>)
    requires result.Length == |rows|
    modifies result
    ensures items == Items(rows, show)
    ensures forall r | 0 <= r < |rows| && !WellFormed(rows[r]) :: result[r] == OutRow(Position(r), MissingValue)
    ensures forall r | 0 <= r < |rows| && WellFormed(rows[r]) :: result[r] == old(result[r])
  {
    items := [];
    for i := 0 to |rows|
      invariant items == Items(rows[..i], show)
      invariant forall r | 0 <= r < i && !WellFormed(rows[r]) :: result[r] == OutRow(Position(r), MissingValue)
      invariant forall r | 0 <= r < |rows| && (r >= i || WellFormed(rows[r])) :: result[r] == old(result[r])
    {
      assert rows[..i + 1][..i] == rows[..i];
      if |rows[i]| < 2 {
        result[i] := OutRow(Position(i), MissingValue);
        continue;
      }
      items := items + [Item(i, rows[i][0], show(rows[i][1]))];
    }
    assert rows[..|rows|] == rows;
  }

  /** What StoreTokenized needs of sub-batch k: ascending positions inside the rows. */
  lemma BatchTargets(rows: seq<seq<Value>>, show: Value -> string, items: seq<Item>, bs: seq<seq<Item>>, k: nat)
    requires Concat(bs) == items && k < |bs|
    requires Ascending(items) && FromRows(rows, show, items)
    ensures Ascending(bs[k]) && Within(bs[k], |rows|)
  {
    BatchOfItems(rows, show, items, bs, k);
    assert FromRows(rows, show, bs[k]);
  }

  /** Facts about sub-batch k of the items, for the dispatch loop. */
  lemma BatchOfItems(rows: seq<seq<Value>>, show: Value -> string, items: seq<Item>, bs: seq<seq<Item>>, k: nat)
    requires Concat(bs) == items && k < |bs|
    requires Ascending(items) && FromRows(rows, show, items)
    ensures SliceAt(items, |Concat(bs[..k])|, bs[k]) && Untouched(items, |Concat(bs[..k])|, bs[k])
    ensures FromRows(rows, show, bs[k]) && Ascending(bs[k])
  {
    ConcatSlice(items, bs, k);
    SliceFromRow(rows, show, items, |Concat(bs[..k])|, bs[k]);
    SliceAscending(items, |Concat(bs[..k])|, bs[k]);
  }

  /** A slice of items taken from rows is taken from rows. */
  lemma SliceFromRow(rows: seq<seq<Value>>, show: Value -> string, items: seq<Item>, off: nat, b: seq<Item>)
    requires SliceAt(items, off, b)
    requires FromRows(rows, show, items)
    ensures FromRows(rows, show, b)
  {
    forall q | 0 <= q < |b|
      ensures FromRow(rows, show, b[q])
    {
      assert items[off + q] == b[q];
    }
  }

  /** A slice of an ascending list is ascending and shares no position with what precedes it. */
  lemma SliceAscending(items: seq<Item>, off: nat, b: seq<Item>)
    requires SliceAt(items, off, b) && Ascending(items)
    ensures Ascending(b) && Untouched(items, off, b)
  {
    forall q1, q2 | 0 <= q1 < q2 < |b|
      ensures b[q1].origIdx < b[q2].origIdx
    {
      assert items[off + q1] == b[q1];
      assert items[off + q2] == b[q2];
    }
    forall p | 0 <= p < off
      ensures items[p].origIdx !in Positions(b)
    {
      forall q | 0 <= q < |b|
        ensures b[q].origIdx != items[p].origIdx
      {
        assert items[off + q] == b[q];
      }
      NotInPositions(b, items[p].origIdx);
    }
  }

  // ---- properties of Tokenize ----

  /**
   * Item j of sub-batch k comes from its row, and that row's output is its
   * row key with its sub-batch's answer for position j: the j-th token of a
   * successful call, or "ERROR: " + the call's error.
   */
  lemma TokenizeRowResult(cfg: SkyflowConfig, rows: seq<seq<Value>>, show: Value -> string,
                          post: Post<TokenizeRequest, TokenizeResponse>, k: nat, j: nat)
    requires ValidConfig(cfg)
    requires k < |TokenizeBatches(cfg, rows, show)| && j < |TokenizeBatches(cfg, rows, show)[k]|
    ensures var it := TokenizeBatches(cfg, rows, show)[k][j];
      && FromRow(rows, show, it)
      && TokenizeOutput(cfg, rows, show, post)[it.origIdx]
         == OutRow(RowKey(it.rowKey), Answer(TokenizeBatch(cfg, TokenizeBatches(cfg, rows, show)[k], post), j))
  {
    var batches := TokenizeBatches(cfg, rows, show);
    var outcomes := TokenizeOutcomes(cfg, batches, post);
    TokenizeItemAt(cfg, rows, show, k, j);
    var it := batches[k][j];
    var p := |Concat(batches[..k])| + j;
    TextsAt(batches, outcomes, k, j);
    TokenizeOutputAt(cfg, rows, show, post, it.origIdx);
    TokenizeOutcomeAt(cfg, batches, post, k);
    var texts := Texts(batches, outcomes);
    assert TokenizeOutput(cfg, rows, show, post)[it.origIdx] == OutRow(RowKey(it.rowKey), texts[p]);
    assert TokenizeOutput(cfg, rows, show, post)[it.origIdx] == OutRow(RowKey(it.rowKey), Answer(outcomes[k], j));
  }

  /** Item j of sub-batch k is the well-formed row whose rank is its position in the concatenated batches. */
  lemma TokenizeItemAt(cfg: SkyflowConfig, rows: seq<seq<Value>>, show: Value -> string, k: nat, j: nat)
    requires ValidConfig(cfg)
    requires k < |TokenizeBatches(cfg, rows, show)| && j < |TokenizeBatches(cfg, rows, show)[k]|
    ensures var batches := TokenizeBatches(cfg, rows, show);
      var it := batches[k][j];
      && FromRow(rows, show, it)
      && Rank(rows, show, it.origIdx) == |Concat(batches[..k])| + j
  {
    ChunksConcat(Items(rows, show), cfg.batchSize);
    ItemRank(rows, show, TokenizeBatches(cfg, rows, show), k, j);
  }

  lemma ItemRank(rows: seq<seq<Value>>, show: Value -> string, bs: seq<seq<Item>>, k: nat, j: nat)
    requires Concat(bs) == Items(rows, show) && k < |bs| && j < |bs[k]|
    ensures FromRow(rows, show, bs[k][j]) && Rank(rows, show, bs[k][j].origIdx) == |Concat(bs[..k])| + j
  {
    var items := Items(rows, show);
    ConcatAt(bs, k, j);
    var p := |Concat(bs[..k])| + j;
    var it := items[p];
    assert FromRow(rows, show, it);
    ItemAt(rows, show, it.origIdx);
    assert items[p].origIdx == it.origIdx;
  }

  /** The output of the well-formed row i is its key and the text of item Rank(rows, show, i). */
  lemma TokenizeOutputAt(cfg: SkyflowConfig, rows: seq<seq<Value>>, show: Value -> string,
                         post: Post<TokenizeRequest, TokenizeResponse>, i: nat)
    requires ValidConfig(cfg) && i < |rows| && WellFormed(rows[i])
    ensures var batches := TokenizeBatches(cfg, rows, show);
      var texts := Texts(batches, TokenizeOutcomes(cfg, batches, post));
      && Rank(rows, show, i) < |texts|
      && TokenizeOutput(cfg, rows, show, post)[i] == OutRow(RowKey(rows[i][0]), texts[Rank(rows, show, i)])
  {
    ChunksConcat(Items(rows, show), cfg.batchSize);
    ItemAt(rows, show, i);
  }

  /** Sub-batch k's outcome is tokenizeBatch of that sub-batch. */
  lemma TokenizeOutcomeAt(cfg: SkyflowConfig, batches: seq<seq<Item>>, post: Post<TokenizeRequest, TokenizeResponse>, k: nat)
    requires k < |batches|
    ensures TokenizeOutcomes(cfg, batches, post)[k] == TokenizeBatch(cfg, batches[k], post)
  {
  }

  /**
   * A row with fewer than two fields is answered [i, "ERROR: missing value"]
   * and no sub-batch carries it.
   */
  lemma TokenizeMalformedRow(cfg: SkyflowConfig, rows: seq<seq<Value>>, show: Value -> string,
                             post: Post<TokenizeRequest, TokenizeResponse>, i: nat)
    requires ValidConfig(cfg) && i < |rows| && !WellFormed(rows[i])
    ensures TokenizeOutput(cfg, rows, show, post)[i] == OutRow(Position(i), MissingValue)
    ensures var batches := TokenizeBatches(cfg, rows, show);
      forall k, j | 0 <= k < |batches| && 0 <= j < |batches[k]| :: batches[k][j].origIdx != i
  {
    var batches: seq<seq<Item>> := TokenizeBatches(cfg, rows, show);
    forall k, j | 0 <= k < |batches| && 0 <= j < |batches[k]|
      ensures batches[k][j].origIdx != i
    {
      TokenizeRowResult(cfg, rows, show, post, k, j);
    }
  }

  /**
   * Every well-formed row is sent exactly once: the items of all sub-batches,
   * in order, hold it once, at index Rank(rows, show, i), with its key and
   * its value rendered by `show`.
   */
  lemma TokenizeSendsEveryRowOnce(cfg: SkyflowConfig, rows: seq<seq<Value>>, show: Value -> string, i: nat)
    requires ValidConfig(cfg) && i < |rows| && WellFormed(rows[i])
    ensures var sent := Concat(TokenizeBatches(cfg, rows, show));
      && Rank(rows, show, i) < |sent|
      && sent[Rank(rows, show, i)] == Item(i, rows[i][0], show(rows[i][1]))
      && forall p | 0 <= p < |sent| :: sent[p].origIdx == i <==> p == Rank(rows, show, i)
  {
    ChunksConcat(Items(rows, show), cfg.batchSize);
    ItemAt(rows, show, i);
  }

  /**
   * The counters Tokenize reports: every row counted, one unique token per
   * well-formed row, one call per sub-batch of at most BatchSize items, at
   * most one error per call, and the latency summary within the observed
   * latencies (zero when no call was made).
   */
  lemma TokenizeMetricsFacts(cfg: SkyflowConfig, rows: seq<seq<Value>>, show: Value -> string,
                             post: Post<TokenizeRequest, TokenizeResponse>, callMs: nat -> nat)
    requires ValidConfig(cfg)
    ensures var m := TokenizeMetrics(cfg, rows, show, post, callMs);
      && m.totalRows == |rows|
      && m.uniqueTokens == CountWellFormed(rows)
      && m.skyflowCalls == CeilDiv(CountWellFormed(rows), cfg.batchSize)
      && m.errors <= m.skyflowCalls
      && (m.skyflowCalls == 0 ==> m.callMinMs == 0 && m.callMaxMs == 0 && m.callAvgMs == 0)
      && (m.skyflowCalls > 0 ==> m.callMinMs <= m.callAvgMs <= m.callMaxMs)
  {
    var items := Items(rows, show);
    var batches := TokenizeBatches(cfg, rows, show);
    var outcomes := TokenizeOutcomes(cfg, batches, post);
    var counted := InitialMetrics(|rows|).(uniqueTokens := |items|, skyflowCalls := |batches|,
                                          errors := Failures(outcomes));
    var m := TokenizeMetrics(cfg, rows, show, post, callMs);
    assert m == LatencyStats(counted, Latencies(callMs, |batches|));
    LatencyStatsBounds(counted, Latencies(callMs, |batches|));
    ChunksCount(items, cfg.batchSize);
  }
}
