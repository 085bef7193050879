/**
 * How sub-batch outcomes become per-item result texts (lambda/skyflow.go,
 * the bodies of the dispatch goroutines): on success item j of the sub-batch
 * gets the j-th result, on failure every item gets "ERROR: " + the error.
 */
module Assembly {
  import opened Wrappers
  import opened Chunking
  import opened Vault

  const ErrorPrefix := "ERROR: "

  /** `fmt.Sprintf("ERROR: %v", err)` */
  function ErrorText(e: BatchError): string
  {
    ErrorPrefix + e.Message()
  }

  /** An error text starts with the fixed prefix, and the error's message can be read back after it. */
  lemma ErrorTextReadsBack(e: BatchError)
    ensures var t := ErrorText(e);
      && |t| == |ErrorPrefix| + |e.Message()|
      && t[..|ErrorPrefix|] == ErrorPrefix && t[|ErrorPrefix|..] == e.Message()
  {
  }

  /** The text item j of a sub-batch receives from that sub-batch's outcome. */
  function Answer(outcome: Result<seq<string>, BatchError>, j: nat): string
    requires outcome.Ok? ==> j < |outcome.value|
  {
    if outcome.Ok? then outcome.value[j] else ErrorText(outcome.error)
  }

  /** One outcome per batch, and a successful one has a result per item. */
  predicate Fits<T>(batches: seq<seq<T>>, outcomes: seq<Result<seq<string>, BatchError>>)
  {
    && |outcomes| == |batches|
    && forall k | 0 <= k < |batches| :: outcomes[k].Ok? ==> |outcomes[k].value| == |batches[k]|
  }

  /** A batch call that, when it succeeds, returns one result per item. */
  ghost predicate Sized<T(!new)>(call: seq<T> -> Result<seq<string>, BatchError>)
  {
    forall b :: call(b).Ok? ==> |call(b).value| == |b|
  }

  /** The outcome of sending every batch through `call`, in batch order. */
  function Outcomes<T(!new)>(call: seq<T> -> Result<seq<string>, BatchError>, batches: seq<seq<T>>)
    : (outcomes: seq<Result<seq<string>, BatchError>>)
    requires Sized(call)
    ensures Fits(batches, outcomes)
  {
    seq(|batches|, k requires 0 <= k < |batches| => call(batches[k]))
  }

  lemma FitsPrefix<T>(batches: seq<seq<T>>, outcomes: seq<Result<seq<string>, BatchError>>, k: nat)
    requires Fits(batches, outcomes) && k <= |batches|
    ensures Fits(batches[..k], outcomes[..k])
  {
  }

  /** The texts the m items of one sub-batch receive from its outcome. */
  function Block(outcome: Result<seq<string>, BatchError>, m: nat): (texts: seq<string>)
    requires outcome.Ok? ==> |outcome.value| == m
    ensures |texts| == m
    ensures forall j | 0 <= j < m :: texts[j] == Answer(outcome, j)
  {
    seq(m, j requires 0 <= j < m => Answer(outcome, j))
  }

  /** The answer block of every sub-batch, in batch order. */
  function Blocks<T>(batches: seq<seq<T>>, outcomes: seq<Result<seq<string>, BatchError>>): (blocks: seq<seq<string>>)
    requires Fits(batches, outcomes)
    ensures |blocks| == |batches|
    ensures forall k | 0 <= k < |batches| :: |blocks[k]| == |batches[k]|
  {
    seq(|batches|, k requires 0 <= k < |batches| => Block(outcomes[k], |batches[k]|))
  }

  /** The texts of all items, batch after batch, aligned with Concat(batches). */
  function Texts<T>(batches: seq<seq<T>>, outcomes: seq<Result<seq<string>, BatchError>>): (texts: seq<string>)
    requires Fits(batches, outcomes)
    ensures |texts| == |Concat(batches)|
  {
    ConcatSameShape(Blocks(batches, outcomes), batches);
    Concat(Blocks(batches, outcomes))
  }

  /** Item j of batch k gets exactly its own batch's answer for position j. */
  lemma TextsAt<T>(batches: seq<seq<T>>, outcomes: seq<Result<seq<string>, BatchError>>, k: nat, j: nat)
    requires Fits(batches, outcomes) && k < |batches| && j < |batches[k]|
    ensures |Concat(batches[..k])| + j < |Texts(batches, outcomes)|
    ensures Texts(batches, outcomes)[|Concat(batches[..k])| + j] == Answer(outcomes[k], j)
  {
    var blocks := Blocks(batches, outcomes);
    ConcatAt(blocks, k, j);
    ConcatSameShape(blocks[..k], batches[..k]);
  }

  /** Extending the batches by one appends that batch's answers. */
  lemma TextsSnoc<T>(batches: seq<seq<T>>, outcomes: seq<Result<seq<string>, BatchError>>, k: nat)
    requires Fits(batches, outcomes) && k < |batches|
    ensures Fits(batches[..k], outcomes[..k]) && Fits(batches[..k + 1], outcomes[..k + 1])
    ensures Texts(batches[..k + 1], outcomes[..k + 1])
         == Texts(batches[..k], outcomes[..k]) + Block(outcomes[k], |batches[k]|)
  {
    FitsPrefix(batches, outcomes, k);
    FitsPrefix(batches, outcomes, k + 1);
    var blocks := Blocks(batches, outcomes);
    assert Blocks(batches[..k + 1], outcomes[..k + 1]) == blocks[..k + 1];
    assert Blocks(batches[..k], outcomes[..k]) == blocks[..k];
    ConcatSnoc(blocks, k);
  }

  /** The number of failed sub-batches (metrics.Errors). */
  function Failures(outcomes: seq<Result<seq<string>, BatchError>>): (n: nat)
    ensures n <= |outcomes|
  {
    if |outcomes| == 0 then 0
    else Failures(outcomes[..|outcomes| - 1]) + (if outcomes[|outcomes| - 1].Err? then 1 else 0)
  }

  lemma FailuresSnoc(outcomes: seq<Result<seq<string>, BatchError>>, k: nat)
    requires k < |outcomes|
    ensures Failures(outcomes[..k + 1]) == Failures(outcomes[..k]) + (if outcomes[k].Err? then 1 else 0)
  {
    assert outcomes[..k + 1][..k] == outcomes[..k];
  }
}
