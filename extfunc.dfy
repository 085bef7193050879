/**
 * What the two Snowflake external-function handlers (lambda/main.go and
 * snowflake_ext_func_benchmark/lambda/main.go) have in common: the Snowflake
 * request headers they label a batch with, the HTTP response they answer
 * with, and the mock transform that answers without a vault.
 */
module ExternalFunction {
  import opened Wrappers
  import opened Text
  import opened Rows

  const QueryIdHeader := "sf-external-function-current-query-id"
  const BatchIdHeader := "sf-external-function-query-batch-id"
  const BenchConfigHeader := "sf-benchmark-config"

  /** The label a missing or empty header is logged with. */
  const Unknown := "unknown"

  /** The labels of one batch: query id, batch id and benchmark configuration. */
  datatype QueryLabels = QueryLabels(queryId: string, batchId: string, benchConfig: string)

  /**
   * The three labels read from `headers` (looked up exactly as written);
   * each missing or empty one becomes "unknown", so no label is ever empty.
   */
  function ReadQueryLabels(headers: map<string, string>): (l: QueryLabels)
    ensures l.queryId != "" && l.batchId != "" && l.benchConfig != ""
    ensures Lookup(headers, QueryIdHeader) != "" ==> l.queryId == headers[QueryIdHeader]
    ensures Lookup(headers, BatchIdHeader) != "" ==> l.batchId == headers[BatchIdHeader]
    ensures Lookup(headers, BenchConfigHeader) != "" ==> l.benchConfig == headers[BenchConfigHeader]
    ensures Lookup(headers, QueryIdHeader) == "" ==> l.queryId == Unknown
    ensures Lookup(headers, BatchIdHeader) == "" ==> l.batchId == Unknown
    ensures Lookup(headers, BenchConfigHeader) == "" ==> l.benchConfig == Unknown
  {
    QueryLabels(
      OrElse(Lookup(headers, QueryIdHeader), Unknown),
      OrElse(Lookup(headers, BatchIdHeader), Unknown),
      OrElse(Lookup(headers, BenchConfigHeader), Unknown))
  }

  /** The body of a response: the rows of `{"data": ...}`, or `{"error": message}`. */
  datatype Body = Data(rows: seq<OutRow>) | Failure(message: string)

  datatype Response = Response(status: int, headers: map<string, string>, body: Body)

  /** The 200 answer: the rows as JSON. */
  function Success(rows: seq<OutRow>): (r: Response)
    ensures r.status == 200 && r.body == Data(rows)
    ensures "Content-Type" in r.headers && r.headers["Content-Type"] == "application/json"
  {
    Response(200, map["Content-Type" := "application/json"], Data(rows))
  }

  const BadBodyPrefix := "invalid request body: "

  /** The 400 answer to a body json.Unmarshal rejects with the error `err`. */
  function BadRequest(err: string): (r: Response)
    ensures r.status == 400 && r.headers == map[]
    ensures r.body.Failure? && StartsWith(r.body.message, BadBodyPrefix) && EndsWith(r.body.message, err)
  {
    Response(400, map[], Failure(BadBodyPrefix + err))
  }

  const MockPrefix := "DETOK_"
  const MockMissing := MockPrefix + "ERROR_MISSING_VALUE"

  /** The mock answer for row i: `[i, "DETOK_ERROR_MISSING_VALUE"]` or `[row[0], "DETOK_" + %v of row[1]]`. */
  function MockRow(rows: seq<seq<Value>>, show: Value -> string, i: nat): OutRow
    requires i < |rows|
  {
    if |rows[i]| < 2 then OutRow(Position(i), MockMissing)
    else OutRow(RowKey(rows[i][0]), MockPrefix + show(rows[i][1]))
  }

  function MockOutput(rows: seq<seq<Value>>, show: Value -> string): (out: seq<OutRow>)
    ensures |out| == |rows|
  {
    seq(|rows|, i requires 0 <= i < |rows| => MockRow(rows, show, i))
  }

  /** The mock loop: one answer per input row, written at the row's own position. */
  method MockRespond(rows: seq<seq<Value>>, show: Value -> string) returns (out: seq<OutRow>)
    ensures out == MockOutput(rows, show)
  {
    var data := new OutRow[|rows|];
    for i := 0 to |rows|
      invariant forall r | 0 <= r < i :: data[r] == MockRow(rows, show, r)
    {
      if |rows[i]| < 2 {
        data[i] := OutRow(Position(i), MockMissing);
        continue;
      }
      var rowNum := rows[i][0];
      var tokenVal := show(rows[i][1]);
      data[i] := OutRow(RowKey(rowNum), MockPrefix + tokenVal);
    }
    out := data[..];
  }

  /** The "detokenized" text with the mock prefix taken off; None when the prefix is missing. */
  function Unmock(text: string): (r: Option<string>)
    ensures r.Some? <==> |text| >= |MockPrefix| && text[..|MockPrefix|] == MockPrefix
    ensures r.Some? ==> MockPrefix + r.value == text
  {
    if |text| >= |MockPrefix| && text[..|MockPrefix|] == MockPrefix then Some(text[|MockPrefix|..]) else None
  }

  /**
   * The mock answer is reversible: every answer carries the prefix; for a
   * well-formed row the key is row[0] unchanged and removing the prefix gives
   * back the row's token text; a short row is answered at its position.
   */
  lemma MockRoundTrip(rows: seq<seq<Value>>, show: Value -> string, i: nat)
    requires i < |rows|
    ensures var o := MockOutput(rows, show)[i];
      && Unmock(o.text).Some?
      && (WellFormed(rows[i]) ==> o.key == RowKey(rows[i][0]) && Unmock(o.text) == Some(show(rows[i][1])))
      && (!WellFormed(rows[i]) ==> o.key == Position(i) && Unmock(o.text) == Some("ERROR_MISSING_VALUE"))
  {
    var o := MockOutput(rows, show)[i];
    if WellFormed(rows[i]) {
      assert o.text == MockPrefix + show(rows[i][1]);
      assert o.text[..|MockPrefix|] == MockPrefix;
      assert o.text[|MockPrefix|..] == show(rows[i][1]);
    } else {
      assert o.text[..|MockPrefix|] == MockPrefix;
    }
  }
}
