/**
 * SkyflowClient.Detokenize (lambda/skyflow.go): the rows are deduplicated by
 * token, only the distinct tokens are split into sub-batches and sent, the
 * answers are collected in valueMap, and valueMap is fanned back out to every
 * row carrying each token. The goroutines of the source write disjoint keys
 * of valueMap, so they are run here one after another; the fan-out walks
 * tokenMap in an arbitrary order, as Go's map iteration does.
 */
module Detokenizer {
  import opened Wrappers
  import opened Text
  import opened Rows
  import opened Chunking
  import opened Vault
  import opened Assembly
  import opened Metrics
  import opened Slots
  import opened Dedup

  /** The map that writing vals[p] under keys[p], for p in order, builds (later writes win). */
  function Zip(keys: seq<string>, vals: seq<string>): (m: map<string, string>)
    requires |keys| == |vals|
    ensures forall p | 0 <= p < |keys| :: keys[p] in m
    decreases |keys|
  {
    if |keys| == 0 then map[]
    else
      var n := |keys| - 1;
      Zip(keys[..n], vals[..n])[keys[n] := vals[n]]
  }

  /** With distinct keys, every key maps to its own value. */
  lemma {:induction false} ZipAt(keys: seq<string>, vals: seq<string>, p: nat)
    requires |keys| == |vals| && NoDup(keys) && p < |keys|
    ensures keys[p] in Zip(keys, vals) && Zip(keys, vals)[keys[p]] == vals[p]
    decreases |keys|
  {
    var n := |keys| - 1;
    if p < n {
      assert keys[p] == keys[..n][p] && keys[p] != keys[n];
      ZipAt(keys[..n], vals[..n], p);
    }
  }

  /** Writing one more pair extends the map by that pair. */
  lemma ZipSnoc(keys: seq<string>, batch: seq<string>, vals: seq<string>, block: seq<string>, j: nat)
    requires |keys| == |vals| && |batch| == |block| && j < |batch|
    ensures Zip(keys + batch[..j + 1], vals + block[..j + 1]) == Zip(keys + batch[..j], vals + block[..j])[batch[j] := block[j]]
  {
    var ks, vs := keys + batch[..j + 1], vals + block[..j + 1];
    var n := |ks| - 1;
    assert ks[..n] == keys + batch[..j] && ks[n] == batch[j];
    assert vs[..n] == vals + block[..j] && vs[n] == block[j];
    assert Zip(ks, vs) == Zip(ks[..n], vs[..n])[ks[n] := vs[n]];
  }

  /** The sub-batches Detokenize sends: the distinct tokens, split. */
  function DetokenizeBatches(cfg: SkyflowConfig, rows: seq<seq<Value>>, show: Value -> string): seq<seq<string>>
    requires ValidConfig(cfg)
  {
    Chunks(Distinct(rows, show), cfg.batchSize)
  }

  /** detokenizeBatch as the call Detokenize makes for each sub-batch. */
  function DetokenizeCall(cfg: SkyflowConfig, post: Post<DetokenizeRequest, DetokenizeResponse>)
    : (call: seq<string> -> Result<seq<string>, BatchError>)
    ensures Sized(call)
  {
    tokens => DetokenizeBatch(cfg, tokens, post)
  }

  /** The outcome of every sub-batch. */
  function DetokenizeOutcomes(cfg: SkyflowConfig, batches: seq<seq<string>>, post: Post<DetokenizeRequest, DetokenizeResponse>)
    : (outcomes: seq<Result<seq<string>, BatchError>>)
    ensures Fits(batches, outcomes)
  {
    Outcomes(DetokenizeCall(cfg, post), batches)
  }

  /** valueMap once every sub-batch has answered. */
  function DetokenizeValues(cfg: SkyflowConfig, rows: seq<seq<Value>>, show: Value -> string,
                            post: Post<DetokenizeRequest, DetokenizeResponse>): map<string, string>
    requires ValidConfig(cfg)
  {
    var batches := DetokenizeBatches(cfg, rows, show);
    Zip(Concat(batches), Texts(batches, DetokenizeOutcomes(cfg, batches, post)))
  }

  /**
   * The rows Detokenize returns: a malformed row i becomes [i, MissingValue];
   * a well-formed row gets its row key and valueMap's entry for its token.
   */
  function DetokenizeOutput(cfg: SkyflowConfig, rows: seq<seq<Value>>, show: Value -> string,
                            post: Post<DetokenizeRequest, DetokenizeResponse>): (out: seq<OutRow>)
    requires ValidConfig(cfg)
    ensures |out| == |rows|
  {
    var values := DetokenizeValues(cfg, rows, show, post);
    seq(|rows|, i requires 0 <= i < |rows| =>
      if !WellFormed(rows[i]) then OutRow(Position(i), MissingValue)
      else OutRow(RowKey(rows[i][0]), Lookup(values, show(rows[i][1]))))
  }

  /** The metrics Detokenize reports (without DedupPct and SkyflowWallMs). */
  function DetokenizeMetrics(cfg: SkyflowConfig, rows: seq<seq<Value>>, show: Value -> string,
                             post: Post<DetokenizeRequest, DetokenizeResponse>, callMs: nat -> nat): SkyflowMetrics
    requires ValidConfig(cfg)
  {
    var batches := DetokenizeBatches(cfg, rows, show);
    var counted := InitialMetrics(|rows|).(uniqueTokens := |Distinct(rows, show)|, skyflowCalls := |batches|,
                                          errors := Failures(DetokenizeOutcomes(cfg, batches, post)));
    LatencyStats(counted, Latencies(callMs, |batches|))
  }

  /**
   * Detokenize: deduplicate the rows, split the distinct tokens, call the
   * vault once per sub-batch, and give every row its token's answer.
   */
  method Detokenize(cfg: SkyflowConfig, rows: seq<seq<Value>>, show: Value -> string,
                    post: Post<DetokenizeRequest, DetokenizeResponse>, callMs: nat -> nat)
    returns (out: seq<OutRow>, metrics: SkyflowMetrics)
    requires ValidConfig(cfg)
    ensures out == DetokenizeOutput(cfg, rows, show, post)
    ensures metrics == DetokenizeMetrics(cfg, rows, show, post, callMs)
  {
    var n := |rows|;
    var result := new OutRow[n];
    metrics := InitialMetrics(n);

    var tokenMap, orderedTokens := Deduplicate(rows, show, result);
    metrics := metrics.(uniqueTokens := |orderedTokens|);

    var batches := Split(orderedTokens, cfg.batchSize);
    metrics := metrics.(skyflowCalls := |batches|);

    var valueMap, errors, latencies := Collect(DetokenizeCall(cfg, post), batches, callMs);
    assert valueMap == DetokenizeValues(cfg, rows, show, post);
    metrics := metrics.(errors := errors);
    metrics := ComputeLatencyStats(metrics, latencies);

    FanOut(rows, show, tokenMap, valueMap, result);
    out := result[..];
    DetokenizeAssembled(cfg, rows, show, post, out);
  }

  /** Once every token is fanned out, the array holds exactly DetokenizeOutput. */
  lemma DetokenizeAssembled(cfg: SkyflowConfig, rows: seq<seq<Value>>, show: Value -> string,
                            post: Post<DetokenizeRequest, DetokenizeResponse>, out: seq<OutRow>)
    requires ValidConfig(cfg)
    requires Placeholders(out, rows) && Fanned(out, rows, show, DetokenizeValues(cfg, rows, show, post), {})
    ensures out == DetokenizeOutput(cfg, rows, show, post)
  {
  }

  /**
   * The dispatch loop of Detokenize: sub-batch k is sent, its latency
   * recorded, a failure counted, and every token of the sub-batch gets its
   * value, or "ERROR: " + the error when the call failed.
   */
  method Collect(call: seq<string> -> Result<seq<string>, BatchError>, batches: seq<seq<string>>, callMs: nat -> nat)
    returns (valueMap: map<string, string>, errors: nat, latencies: seq<nat>)
    requires Sized(call)
    ensures valueMap == Zip(Concat(batches), Texts(batches, Outcomes(call, batches)))
    ensures errors == Failures(Outcomes(call, batches))
    ensures latencies == Latencies(callMs, |batches|)
  {
    ghost var outcomes := Outcomes(call, batches);
    valueMap, errors, latencies := map[], 0, [];
    for k := 0 to |batches|
      invariant latencies == Latencies(callMs, k)
      invariant errors == Failures(outcomes[..k])
      invariant Fits(batches[..k], outcomes[..k])
      invariant valueMap == Zip(Concat(batches[..k]), Texts(batches[..k], outcomes[..k]))
    {
      var batch := batches[k];
      var values := call(batch);
      latencies := latencies + [callMs(k)];
      FailuresSnoc(outcomes, k);
      if values.Err? {
        errors := errors + 1;
      }
      TextsSnoc(batches, outcomes, k);
      ConcatSnoc(batches, k);
      ghost var keys, texts := Concat(batches[..k]), Texts(batches[..k], outcomes[..k]);
      ghost var block := Block(values, |batch|);
      assert keys + batch[..0] == keys && texts + block[..0] == texts;
      for j := 0 to |batch|
        invariant valueMap == Zip(keys + batch[..j], texts + block[..j])
      {
        ZipSnoc(keys, batch, texts, block, j);
        var text := if values.Err? then ErrorText(values.error) else values.value[j];
        valueMap := valueMap[batch[j] := text];
      }
      assert batch[..|batch|] == batch && block[..|batch|] == block;
    }
    assert batches[..|batches|] == batches && outcomes[..|batches|] == outcomes;
  }

  /** Every well-formed row whose token is no longer pending holds [rowKey, valueMap[token]] in `s`. */
  ghost predicate Fanned(s: seq<OutRow>, rows: seq<seq<Value>>, show: Value -> string,
                         valueMap: map<string, string>, pending: set<string>)
  {
    && |s| == |rows|
    && forall i | 0 <= i < |rows| && WellFormed(rows[i]) && show(rows[i][1]) !in pending ::
         s[i] == OutRow(RowKey(rows[i][0]), Lookup(valueMap, show(rows[i][1])))
  }

  /**
   * The fan-out loop of Detokenize: for each token of tokenMap, in any
   * order, every row carrying it gets [rowKey, valueMap[token]].
   */
  method FanOut(rows: seq<seq<Value>>, show: Value -> string, tokenMap: map<string, seq<Item>>,
                valueMap: map<string, string>, result: array<OutRow>)
    requires tokenMap == TokenMap(rows, show)
    requires Placeholders(result[..], rows)
    modifies result
    ensures Placeholders(result[..], rows)
    ensures Fanned(result[..], rows, show, valueMap, {})
  {
    var pending := tokenMap.Keys;
    while pending != {}
      invariant pending <= tokenMap.Keys
      invariant Placeholders(result[..], rows)
      invariant Fanned(result[..], rows, show, valueMap, pending)
      decreases pending
    {
      var token :| token in pending;
      var val := Lookup(valueMap, token);
      var refs := tokenMap[token];
      ghost var before := result[..];
      StoreRefs(result, refs, val);
      FanStep(rows, show, valueMap, pending, token, before, result[..]);
      pending := pending - {token};
    }
  }

  /** Every row of `refs` holds [rowKey, val] in `s`. */
  ghost predicate Filled(s: seq<OutRow>, refs: seq<Item>, val: string)
  {
    forall q | 0 <= q < |refs| :: refs[q].origIdx < |s| && s[refs[q].origIdx] == OutRow(RowKey(refs[q].rowKey), val)
  }

  /** The inner loop of the fan-out: every row of the list gets [rowKey, val]; no other slot changes. */
  method StoreRefs(result: array<OutRow>, refs: seq<Item>, val: string)
    requires Within(refs, result.Length) && Ascending(refs)
    modifies result
    ensures Filled(result[..], refs, val)
    ensures OnlyAt(old(result[..]), result[..], refs)
  {
    for q := 0 to |refs|
      invariant forall q' | 0 <= q' < q :: result[refs[q'].origIdx] == OutRow(RowKey(refs[q'].rowKey), val)
      invariant forall r | 0 <= r < result.Length && r !in Positions(refs) :: result[r] == old(result[r])
    {
      result[refs[q].origIdx] := OutRow(RowKey(refs[q].rowKey), val);
    }
  }

  /** Filling the rows of one more token keeps the placeholders and finishes that token. */
  lemma FanStep(rows: seq<seq<Value>>, show: Value -> string, valueMap: map<string, string>, pending: set<string>,
                token: string, before: seq<OutRow>, after: seq<OutRow>)
    requires token in TokenMap(rows, show)
    requires Placeholders(before, rows) && Fanned(before, rows, show, valueMap, pending)
    requires OnlyAt(before, after, TokenMap(rows, show)[token])
    requires Filled(after, TokenMap(rows, show)[token], Lookup(valueMap, token))
    ensures Placeholders(after, rows) && Fanned(after, rows, show, valueMap, pending - {token})
  {
    var refs := TokenMap(rows, show)[token];
    PlaceholdersKept(before, after, rows, show, refs);
    forall i | 0 <= i < |rows| && WellFormed(rows[i]) && show(rows[i][1]) !in pending - {token}
      ensures after[i] == OutRow(RowKey(rows[i][0]), Lookup(valueMap, show(rows[i][1])))
    {
      if show(rows[i][1]) == token {
        var q := RefOf(rows, show, i);
      } else {
        forall q | 0 <= q < |refs|
          ensures refs[q].origIdx != i
        {
          assert FromRow(rows, show, refs[q]);
        }
        NotInPositions(refs, i);
      }
    }
  }

  // ---- properties of Detokenize ----

  /**
   * Exactly the distinct tokens are sent: no token twice, the token of every
   * well-formed row, and only tokens some row carries (the first row listed
   * under it carries it).
   */
  lemma DetokenizeSendsEachTokenOnce(cfg: SkyflowConfig, rows: seq<seq<Value>>, show: Value -> string)
    requires ValidConfig(cfg)
    ensures var sent := Concat(DetokenizeBatches(cfg, rows, show));
      && NoDup(sent)
      && |sent| == |Distinct(rows, show)|
      && (forall i | 0 <= i < |rows| && WellFormed(rows[i]) :: show(rows[i][1]) in sent)
      && forall p | 0 <= p < |sent| ::
           sent[p] in TokenMap(rows, show)
           && var r := FirstRow(rows, show, sent[p]);
              r < |rows| && WellFormed(rows[r]) && show(rows[r][1]) == sent[p]
  {
    var d := Distinct(rows, show);
    ChunksConcat(d, cfg.batchSize);
    forall p | 0 <= p < |d|
      ensures d[p] in TokenMap(rows, show)
      ensures var r := FirstRow(rows, show, d[p]); r < |rows| && WellFormed(rows[r]) && show(rows[r][1]) == d[p]
    {
      assert d[p] in d;
      var refs := TokenMap(rows, show)[d[p]];
      assert FromRow(rows, show, refs[0]);
    }
  }

  /** valueMap has an entry for the token of every well-formed row, so the "" default never shows. */
  lemma DetokenizeKeyPresent(cfg: SkyflowConfig, rows: seq<seq<Value>>, show: Value -> string,
                             post: Post<DetokenizeRequest, DetokenizeResponse>, i: nat)
    requires ValidConfig(cfg) && i < |rows| && WellFormed(rows[i])
    ensures show(rows[i][1]) in DetokenizeValues(cfg, rows, show, post)
  {
    var d := Distinct(rows, show);
    ChunksConcat(d, cfg.batchSize);
    var t := show(rows[i][1]);
    assert t in d;
    var p :| 0 <= p < |d| && d[p] == t;
  }

  /**
   * The well-formed row i ends as its row key and the answer its token got:
   * its token is item j of sub-batch k, and the row receives the j-th value
   * of that sub-batch's detokenizeBatch, or "ERROR: " + its error.
   */
  lemma DetokenizeRowResult(cfg: SkyflowConfig, rows: seq<seq<Value>>, show: Value -> string,
                            post: Post<DetokenizeRequest, DetokenizeResponse>, i: nat) returns (k: nat, j: nat)
    requires ValidConfig(cfg) && i < |rows| && WellFormed(rows[i])
    ensures var batches := DetokenizeBatches(cfg, rows, show);
      && k < |batches| && j < |batches[k]| && batches[k][j] == show(rows[i][1])
      && DetokenizeOutput(cfg, rows, show, post)[i]
         == OutRow(RowKey(rows[i][0]), Answer(DetokenizeBatch(cfg, batches[k], post), j))
  {
    k, j := DetokenizeTokenAt(cfg, rows, show, i);
    DetokenizeValueAt(cfg, rows, show, post, k, j);
    DetokenizeOutcomeAt(cfg, DetokenizeBatches(cfg, rows, show), post, k);
  }

  /** The token of the well-formed row i is item j of sub-batch k. */
  lemma DetokenizeTokenAt(cfg: SkyflowConfig, rows: seq<seq<Value>>, show: Value -> string, i: nat) returns (k: nat, j: nat)
    requires ValidConfig(cfg) && i < |rows| && WellFormed(rows[i])
    ensures var batches := DetokenizeBatches(cfg, rows, show);
      k < |batches| && j < |batches[k]| && batches[k][j] == show(rows[i][1])
  {
    TokenListed(rows, show, i);
    k, j := ChunkOf(Distinct(rows, show), cfg.batchSize, show(rows[i][1]));
  }

  /** valueMap holds, for item j of sub-batch k, that sub-batch's answer for position j. */
  lemma DetokenizeValueAt(cfg: SkyflowConfig, rows: seq<seq<Value>>, show: Value -> string,
                          post: Post<DetokenizeRequest, DetokenizeResponse>, k: nat, j: nat)
    requires ValidConfig(cfg)
    requires k < |DetokenizeBatches(cfg, rows, show)| && j < |DetokenizeBatches(cfg, rows, show)[k]|
    ensures var batches := DetokenizeBatches(cfg, rows, show);
      var values := DetokenizeValues(cfg, rows, show, post);
      && batches[k][j] in values
      && values[batches[k][j]] == Answer(DetokenizeOutcomes(cfg, batches, post)[k], j)
  {
    var batches := DetokenizeBatches(cfg, rows, show);
    ChunksConcat(Distinct(rows, show), cfg.batchSize);
    ZipBatchAt(batches, DetokenizeOutcomes(cfg, batches, post), k, j);
  }

  /** With distinct keys, the map built from the batches holds each key's own answer. */
  lemma ZipBatchAt(batches: seq<seq<string>>, outcomes: seq<Result<seq<string>, BatchError>>, k: nat, j: nat)
    requires Fits(batches, outcomes) && NoDup(Concat(batches))
    requires k < |batches| && j < |batches[k]|
    ensures var values := Zip(Concat(batches), Texts(batches, outcomes));
      batches[k][j] in values && values[batches[k][j]] == Answer(outcomes[k], j)
  {
    TextsAt(batches, outcomes, k, j);
    ZipConcatAt(batches, Texts(batches, outcomes), k, j);
  }

  /** With distinct keys, key j of batch k maps to the value at its place in the concatenation. */
  lemma ZipConcatAt(batches: seq<seq<string>>, vals: seq<string>, k: nat, j: nat)
    requires |vals| == |Concat(batches)| && NoDup(Concat(batches))
    requires k < |batches| && j < |batches[k]|
    ensures |Concat(batches[..k])| + j < |vals|
    ensures batches[k][j] in Zip(Concat(batches), vals)
    ensures Zip(Concat(batches), vals)[batches[k][j]] == vals[|Concat(batches[..k])| + j]
  {
    ConcatAt(batches, k, j);
    ZipAt(Concat(batches), vals, |Concat(batches[..k])| + j);
  }

  /** Sub-batch k's outcome is detokenizeBatch of that sub-batch. */
  lemma DetokenizeOutcomeAt(cfg: SkyflowConfig, batches: seq<seq<string>>, post: Post<DetokenizeRequest, DetokenizeResponse>, k: nat)
    requires k < |batches|
    ensures DetokenizeOutcomes(cfg, batches, post)[k] == DetokenizeBatch(cfg, batches[k], post)
  {
  }

  /** Rows that carry the same token receive the same text, whatever their keys. */
  lemma DetokenizeSharedToken(cfg: SkyflowConfig, rows: seq<seq<Value>>, show: Value -> string,
                              post: Post<DetokenizeRequest, DetokenizeResponse>, i1: nat, i2: nat)
    requires ValidConfig(cfg)
    requires i1 < |rows| && WellFormed(rows[i1]) && i2 < |rows| && WellFormed(rows[i2])
    requires show(rows[i1][1]) == show(rows[i2][1])
    ensures DetokenizeOutput(cfg, rows, show, post)[i1].text == DetokenizeOutput(cfg, rows, show, post)[i2].text
  {
  }

  /**
   * The counters Detokenize reports: every row counted, one unique token per
   * distinct token (never more than the well-formed rows), one call per
   * sub-batch of at most BatchSize tokens, at most one error per call, and
   * the latency summary within the observed latencies.
   */
  lemma DetokenizeMetricsFacts(cfg: SkyflowConfig, rows: seq<seq<Value>>, show: Value -> string,
                               post: Post<DetokenizeRequest, DetokenizeResponse>, callMs: nat -> nat)
    requires ValidConfig(cfg)
    ensures var m := DetokenizeMetrics(cfg, rows, show, post, callMs);
      && m.totalRows == |rows|
      && m.uniqueTokens == |Distinct(rows, show)| <= CountWellFormed(rows)
      && m.skyflowCalls == CeilDiv(|Distinct(rows, show)|, cfg.batchSize)
      && m.errors <= m.skyflowCalls
      && (m.skyflowCalls == 0 ==> m.callMinMs == 0 && m.callMaxMs == 0 && m.callAvgMs == 0)
      && (m.skyflowCalls > 0 ==> m.callMinMs <= m.callAvgMs <= m.callMaxMs)
  {
    var d := Distinct(rows, show);
    var batches := DetokenizeBatches(cfg, rows, show);
    var outcomes := DetokenizeOutcomes(cfg, batches, post);
    var counted := InitialMetrics(|rows|).(uniqueTokens := |d|, skyflowCalls := |batches|,
                                          errors := Failures(outcomes));
    var m := DetokenizeMetrics(cfg, rows, show, post, callMs);
    assert m == LatencyStats(counted, Latencies(callMs, |batches|));
    LatencyStatsBounds(counted, Latencies(callMs, |batches|));
    ChunksCount(d, cfg.batchSize);
    DistinctCount(rows, show);
  }
}
