/**
 * The benchmark Lambda (snowflake_ext_func_benchmark/lambda/main.go): a mock
 * external function that labels each batch from its headers (case-sensitive
 * lookups, no operation), answers with the "DETOK_" transform and, when
 * DynamoDB is configured, writes one metric record per batch keyed by query
 * id and a sort key `batchId#receiveTs`.
 *
 * The clock readings (receive timestamp, processing duration) are
 * parameters; the DynamoDB write is returned as the item that would be put.
 */
module Benchmark {
  import opened Wrappers
  import opened Text
  import opened Rows
  import opened Config
  import opened ExternalFunction

  const DefaultMetricsTable := "ext_func_benchmark_metrics"

  /** The DynamoDB table the metric records go to: DYNAMODB_TABLE, or the default when it is empty. */
  function MetricsTable(env: Env): (r: string)
    ensures r != ""
    ensures Lookup(env, "DYNAMODB_TABLE") != "" ==> r == env["DYNAMODB_TABLE"]
    ensures Lookup(env, "DYNAMODB_TABLE") == "" ==> r == DefaultMetricsTable
  {
    EnvOrDefault(env, "DYNAMODB_TABLE", DefaultMetricsTable)
  }

  /**
   * The simulated delay in milliseconds: SIMULATED_DELAY_MS when it parses as
   * a positive integer, and 0 (no delay) in every other case.
   */
  function SimulatedDelayMs(env: Env): (r: int)
    ensures r >= 0
    ensures r > 0 <==> Atoi(Lookup(env, "SIMULATED_DELAY_MS")).Some? && Atoi(Lookup(env, "SIMULATED_DELAY_MS")).value > 0
    ensures r > 0 ==> r == Atoi(Lookup(env, "SIMULATED_DELAY_MS")).value
  {
    EnvIntOrDefault(env, "SIMULATED_DELAY_MS", 0)
  }

  /** The package globals `init` sets up. */
  class Globals {
    var tableName: string
    var simulatedDelayMs: int
    /** Whether the AWS configuration loaded, so that a DynamoDB client exists. */
    var dynamoConfigured: bool

    /** init: the table name, the simulated delay (0 unless set to a positive number) and the DynamoDB client. */
    constructor Init(env: Env, awsConfigLoaded: bool)
      ensures tableName == MetricsTable(env)
      ensures simulatedDelayMs == SimulatedDelayMs(env)
      ensures dynamoConfigured == awsConfigLoaded
    {
      var table := Lookup(env, "DYNAMODB_TABLE");
      if table == "" {
        table := DefaultMetricsTable;
      }
      var delay := 0;
      var delayStr := Lookup(env, "SIMULATED_DELAY_MS");
      if delayStr != "" {
        var ms := Atoi(delayStr);
        if ms.Some? && ms.value > 0 {
          delay := ms.value;
        }
      }
      tableName, simulatedDelayMs, dynamoConfigured := table, delay, awsConfigLoaded;
    }
  }

  /**
   * The sort key `%s#%d` of batch id and receive timestamp: the batch id, a
   * '#', and a timestamp part that holds no '#', so the key's last '#' is
   * the one after the batch id.
   */
  function SortKey(batchId: string, receiveTs: int): (k: string)
    ensures |k| > |batchId| + 1 && k[..|batchId|] == batchId && k[|batchId|] == '#'
    ensures forall j | |batchId| < j < |k| :: k[j] != '#'
  {
    batchId + "#" + Decimal(receiveTs)
  }

  /** The position of the last '#' of s, if any. */
  function LastHash(s: string): (r: Option<nat>)
    ensures r.Some? ==> r.value < |s| && s[r.value] == '#' && forall j | r.value < j < |s| :: s[j] != '#'
    ensures r.None? ==> forall j | 0 <= j < |s| :: s[j] != '#'
  {
    if |s| == 0 then None
    else if s[|s| - 1] == '#' then Some(|s| - 1)
    else LastHash(s[..|s| - 1])
  }

  /**
   * Reading a sort key back: the batch id is everything before the last '#'
   * (a batch id may itself contain '#'), the timestamp what follows it.
   */
  function ParseSortKey(sortKey: string): Option<(string, int)>
  {
    match LastHash(sortKey)
    case None => None
    case Some(p) =>
      match Atoi(sortKey[p + 1..])
      case None => None
      case Some(ts) => Some((sortKey[..p], ts))
  }

  /** Every sort key reads back as the batch id and the int64 timestamp it was made of. */
  lemma SortKeyRoundTrip(batchId: string, receiveTs: int)
    requires Int64Min <= receiveTs <= Int64Max
    ensures ParseSortKey(SortKey(batchId, receiveTs)) == Some((batchId, receiveTs))
  {
    var s := SortKey(batchId, receiveTs);
    var digits := Decimal(receiveTs);
    assert s[|batchId|] == '#';
    assert forall j | |batchId| < j < |s| :: s[j] == digits[j - |batchId| - 1];
    var p := LastHash(s).value;
    assert p == |batchId|;
    assert s[p + 1..] == digits && s[..p] == batchId;
    DecimalRoundTrip(receiveTs);
  }

  /** So two batches' records share a sort key only when batch id and timestamp both agree. */
  lemma SortKeyInjective(batchId: string, receiveTs: int, batchId': string, receiveTs': int)
    requires Int64Min <= receiveTs <= Int64Max && Int64Min <= receiveTs' <= Int64Max
    requires SortKey(batchId, receiveTs) == SortKey(batchId', receiveTs')
    ensures batchId == batchId' && receiveTs == receiveTs'
  {
    SortKeyRoundTrip(batchId, receiveTs);
    SortKeyRoundTrip(batchId', receiveTs');
  }

  /** The metric record of one batch (without the invocation number and instance id). */
  datatype MetricRecord = MetricRecord(
    queryId: string,
    sortKey: string,
    batchId: string,
    batchSize: nat,
    receiveTimestampNs: int,
    processingDurNs: int,
    benchmarkConfig: string)

  /** A DynamoDB PutItem of `record` into `table`. */
  datatype PutItem = PutItem(table: string, record: MetricRecord)

  /**
   * The record of one batch, keyed by query id and sort key; for an int64
   * timestamp the sort key reads back as the record's own batch id and
   * timestamp fields.
   */
  function Record(labels: QueryLabels, batchSize: nat, receiveTs: int, processingDurNs: int): (r: MetricRecord)
    ensures r.queryId == labels.queryId && r.batchId == labels.batchId && r.benchmarkConfig == labels.benchConfig
    ensures r.receiveTimestampNs == receiveTs && r.batchSize == batchSize && r.processingDurNs == processingDurNs
    ensures Int64Min <= receiveTs <= Int64Max ==> ParseSortKey(r.sortKey) == Some((r.batchId, r.receiveTimestampNs))
  {
    var r := MetricRecord(labels.queryId, SortKey(labels.batchId, receiveTs), labels.batchId, batchSize,
                          receiveTs, processingDurNs, labels.benchConfig);
    if Int64Min <= receiveTs <= Int64Max then SortKeyRoundTrip(labels.batchId, receiveTs); r else r
  }

  /** The answer: 400 for a body that does not parse, else the mock rows. */
  function BenchRespond(parsed: Result<seq<seq<Value>>, string>, show: Value -> string): Response
  {
    if parsed.Err? then BadRequest(parsed.error) else Success(MockOutput(parsed.value, show))
  }

  /**
   * handler: the labels come from the headers as sent; a body that does not
   * parse is answered with 400 and nothing is written; otherwise the mock
   * rows are the answer and, with a DynamoDB client, the batch's record is
   * put into the metrics table. A failed write does not change the answer.
   */
  method Handle(g: Globals, headers: map<string, string>, parsed: Result<seq<seq<Value>>, string>,
                show: Value -> string, receiveTs: int, processingDurNs: int)
    returns (resp: Response, labels: QueryLabels, write: Option<PutItem>)
    ensures labels == ReadQueryLabels(headers)
    ensures resp == BenchRespond(parsed, show)
    ensures write == if parsed.Ok? && g.dynamoConfigured
                     then Some(PutItem(g.tableName, Record(labels, |parsed.value|, receiveTs, processingDurNs)))
                     else None
  {
    labels := ReadQueryLabels(headers);
    if parsed.Err? {
      return BadRequest(parsed.error), labels, None;
    }
    var rows := parsed.value;
    var out := MockRespond(rows, show);
    write := None;
    if g.dynamoConfigured {
      write := Some(PutItem(g.tableName, MetricRecord(labels.queryId, SortKey(labels.batchId, receiveTs), labels.batchId,
                                                     |rows|, receiveTs, processingDurNs, labels.benchConfig)));
    }
    resp := Success(out);
  }

  /**
   * Status codes: 400 exactly when the body does not parse; otherwise 200
   * with a JSON content type and one mock row per request row.
   */
  lemma BenchStatus(parsed: Result<seq<seq<Value>>, string>, show: Value -> string)
    ensures var resp := BenchRespond(parsed, show);
      && (resp.status == 400 <==> parsed.Err?)
      && (parsed.Err? ==> resp.body == Failure(BadBodyPrefix + parsed.error))
      && (parsed.Ok? ==> resp.status == 200 && resp.headers == map["Content-Type" := "application/json"]
                         && resp.body.Data? && |resp.body.rows| == |parsed.value|)
  {
  }
}
