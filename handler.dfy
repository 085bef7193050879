/**
 * The external-function handler of lambda/main.go: it lower-cases the request
 * headers, reads the batch labels and the operation, rejects a body that does
 * not parse, and answers with the vault client's rows (tokenize or
 * detokenize) or, without a client, with the mock transform.
 *
 * The parsed body is a parameter (`parsed`: the rows json.Unmarshal gives,
 * or its error text); the client is an optional configuration; the two vault
 * oracles and the per-call latencies are those of the client operations.
 */
module Handler {
  import opened Wrappers
  import opened Text
  import opened Rows
  import opened Vault
  import opened Metrics
  import opened Tokenizer
  import opened Detokenizer
  import opened ExternalFunction

  const OperationHeader := "sf-custom-x-operation"

  /** The operation of a request without an operation header. */
  const DefaultOperation := "detokenize"

  /**
   * `lower` is `headers` with every key lower-cased: each request key has its
   * lower-case form in `lower`, and each entry of `lower` holds the value of
   * some request key with that lower-case form.
   */
  ghost predicate Lowered(headers: map<string, string>, lower: map<string, string>)
  {
    && (forall k | k in headers :: ToLower(k) in lower)
    && (forall k | k in lower :: exists k0 | k0 in headers :: ToLower(k0) == k && headers[k0] == lower[k])
  }

  /**
   * The header loop. Go visits map keys in no fixed order, so when two
   * request keys differ only in case either value may win; the loop picks
   * the next key arbitrarily to cover every order.
   */
  method LowerHeaders(headers: map<string, string>) returns (lower: map<string, string>)
    ensures Lowered(headers, lower)
  {
    lower := map[];
    var rest := headers.Keys;
    while rest != {}
      invariant rest <= headers.Keys
      invariant forall k | k in headers && k !in rest :: ToLower(k) in lower
      invariant forall k | k in lower :: exists k0 | k0 in headers :: ToLower(k0) == k && headers[k0] == lower[k]
      decreases rest
    {
      var k :| k in rest;
      lower := lower[ToLower(k) := headers[k]];
      rest := rest - {k};
    }
  }

  /** Every key of the lowered headers is lower-case. */
  lemma LoweredKeys(headers: map<string, string>, lower: map<string, string>, k: string)
    requires Lowered(headers, lower) && k in lower
    ensures IsLower(k)
  {
    var k0 :| k0 in headers && ToLower(k0) == k && headers[k0] == lower[k];
  }

  /** A request key that no other key equals up to case keeps its value, whatever its case. */
  lemma LoweredUnique(headers: map<string, string>, lower: map<string, string>, k0: string)
    requires Lowered(headers, lower) && k0 in headers
    requires forall k1 | k1 in headers && ToLower(k1) == ToLower(k0) :: k1 == k0
    ensures ToLower(k0) in lower && lower[ToLower(k0)] == headers[k0]
  {
    var k1 :| k1 in headers && ToLower(k1) == ToLower(k0) && headers[k1] == lower[ToLower(k0)];
  }

  /** The labels the handler logs: the batch labels and the operation. */
  datatype Labels = Labels(query: QueryLabels, operation: string)

  /**
   * The labels of a request with lowered headers `lower`: an empty or missing
   * operation is "detokenize", and the operation is lower-cased.
   */
  function ReadLabels(lower: map<string, string>): (l: Labels)
    ensures l.query == ReadQueryLabels(lower)
    ensures l.operation != "" && IsLower(l.operation)
    ensures Lookup(lower, OperationHeader) == "" ==> l.operation == DefaultOperation
    ensures Lookup(lower, OperationHeader) != "" ==> l.operation == ToLower(lower[OperationHeader])
  {
    var operation := OrElse(Lookup(lower, OperationHeader), DefaultOperation);
    ToLowerFixedPoints(DefaultOperation);
    Labels(ReadQueryLabels(lower), ToLower(operation))
  }

  const UnknownOperationPrefix := "unknown operation: "

  /** The 400 answer to an operation other than tokenize and detokenize. */
  function UnknownOperation(operation: string): (r: Response)
    ensures r.status == 400 && r.headers == map[]
    ensures r.body.Failure? && StartsWith(r.body.message, UnknownOperationPrefix) && EndsWith(r.body.message, operation)
  {
    Response(400, map[], Failure(UnknownOperationPrefix + operation))
  }

  /**
   * The answer to a request with the given operation: 400 for a body that
   * does not parse; the mock rows without a client; with a client the
   * tokenize or detokenize rows, and 400 for any other operation.
   */
  function Respond(operation: string, parsed: Result<seq<seq<Value>>, string>, client: Option<SkyflowConfig>,
                   show: Value -> string, tokenizePost: Post<TokenizeRequest, TokenizeResponse>,
                   detokenizePost: Post<DetokenizeRequest, DetokenizeResponse>): Response
    requires client.Some? ==> ValidConfig(client.value)
  {
    if parsed.Err? then BadRequest(parsed.error)
    else if client.None? then Success(MockOutput(parsed.value, show))
    else if operation == "tokenize" then Success(TokenizeOutput(client.value, parsed.value, show, tokenizePost))
    else if operation == "detokenize" then Success(DetokenizeOutput(client.value, parsed.value, show, detokenizePost))
    else UnknownOperation(operation)
  }

  /** The vault metrics of a request: present only when a vault operation ran. */
  function RespondMetrics(operation: string, parsed: Result<seq<seq<Value>>, string>, client: Option<SkyflowConfig>,
                          show: Value -> string, tokenizePost: Post<TokenizeRequest, TokenizeResponse>,
                          detokenizePost: Post<DetokenizeRequest, DetokenizeResponse>, callMs: nat -> nat): Option<SkyflowMetrics>
    requires client.Some? ==> ValidConfig(client.value)
  {
    if parsed.Err? || client.None? then None
    else if operation == "tokenize" then Some(TokenizeMetrics(client.value, parsed.value, show, tokenizePost, callMs))
    else if operation == "detokenize" then Some(DetokenizeMetrics(client.value, parsed.value, show, detokenizePost, callMs))
    else None
  }

  /** handler. */
  method Handle(headers: map<string, string>, parsed: Result<seq<seq<Value>>, string>, client: Option<SkyflowConfig>,
                show: Value -> string, tokenizePost: Post<TokenizeRequest, TokenizeResponse>,
                detokenizePost: Post<DetokenizeRequest, DetokenizeResponse>, callMs: nat -> nat)
    returns (resp: Response, metrics: Option<SkyflowMetrics>, labels: Labels)
    requires client.Some? ==> ValidConfig(client.value)
    ensures exists lower | Lowered(headers, lower) :: labels == ReadLabels(lower)
    ensures resp == Respond(labels.operation, parsed, client, show, tokenizePost, detokenizePost)
    ensures metrics == RespondMetrics(labels.operation, parsed, client, show, tokenizePost, detokenizePost, callMs)
  {
    var lower := LowerHeaders(headers);
    var query := ReadQueryLabels(lower);
    var operation := Lookup(lower, OperationHeader);
    if operation == "" {
      operation := DefaultOperation;
    }
    operation := ToLower(operation);
    labels := Labels(query, operation);
    assert labels == ReadLabels(lower);

    if parsed.Err? {
      return BadRequest(parsed.error), None, labels;
    }
    var rows := parsed.value;
    if client.Some? {
      var out, m;
      if operation == "tokenize" {
        out, m := Tokenize(client.value, rows, show, tokenizePost, callMs);
      } else if operation == "detokenize" {
        out, m := Detokenize(client.value, rows, show, detokenizePost, callMs);
      } else {
        return UnknownOperation(operation), None, labels;
      }
      resp, metrics := Success(out), Some(m);
    } else {
      var out := MockRespond(rows, show);
      resp, metrics := Success(out), None;
    }
  }

  /**
   * Status codes: 400 exactly for a body that does not parse or, with a
   * client, an operation other than tokenize and detokenize; 200 with a JSON
   * content type and one answer row per request row otherwise. (The vault
   * operations never fail as a whole, so the 500 answer is never given.)
   */
  lemma RespondStatus(operation: string, parsed: Result<seq<seq<Value>>, string>, client: Option<SkyflowConfig>,
                      show: Value -> string, tokenizePost: Post<TokenizeRequest, TokenizeResponse>,
                      detokenizePost: Post<DetokenizeRequest, DetokenizeResponse>)
    requires client.Some? ==> ValidConfig(client.value)
    ensures var resp := Respond(operation, parsed, client, show, tokenizePost, detokenizePost);
      && (resp.status == 400 <==> parsed.Err? || (client.Some? && operation != "tokenize" && operation != "detokenize"))
      && (resp.status != 400 ==>
            && resp.status == 200 && resp.headers == map["Content-Type" := "application/json"]
            && resp.body.Data? && |resp.body.rows| == |parsed.value|)
  {
  }

  /**
   * No vault call without a known operation or without a client: the answer
   * then depends on neither vault oracle, and no metrics are reported.
   */
  lemma NoVaultCall(operation: string, parsed: Result<seq<seq<Value>>, string>, client: Option<SkyflowConfig>,
                    show: Value -> string,
                    tokenizePost: Post<TokenizeRequest, TokenizeResponse>, tokenizePost': Post<TokenizeRequest, TokenizeResponse>,
                    detokenizePost: Post<DetokenizeRequest, DetokenizeResponse>, detokenizePost': Post<DetokenizeRequest, DetokenizeResponse>,
                    callMs: nat -> nat)
    requires client.Some? ==> ValidConfig(client.value)
    requires client.None? || (operation != "tokenize" && operation != "detokenize")
    ensures Respond(operation, parsed, client, show, tokenizePost, detokenizePost)
         == Respond(operation, parsed, client, show, tokenizePost', detokenizePost')
    ensures RespondMetrics(operation, parsed, client, show, tokenizePost, detokenizePost, callMs).None?
  {
  }

  /**
   * The mock ignores the operation: without a client, a tokenize request is
   * answered with the same "DETOK_" rows as a detokenize request.
   */
  lemma MockIgnoresOperation(operation: string, parsed: Result<seq<seq<Value>>, string>, show: Value -> string,
                             tokenizePost: Post<TokenizeRequest, TokenizeResponse>,
                             detokenizePost: Post<DetokenizeRequest, DetokenizeResponse>)
    requires parsed.Ok?
    ensures Respond(operation, parsed, None, show, tokenizePost, detokenizePost) == Success(MockOutput(parsed.value, show))
  {
  }

  /**
   * Mock and vault answers are interchangeable row by row: all three put
   * row[0] (or, for a short row, its position) first in answer row i.
   */
  lemma AnswerKeysAgree(cfg: SkyflowConfig, rows: seq<seq<Value>>, show: Value -> string,
                        tokenizePost: Post<TokenizeRequest, TokenizeResponse>,
                        detokenizePost: Post<DetokenizeRequest, DetokenizeResponse>, i: nat)
    requires ValidConfig(cfg) && i < |rows|
    ensures TokenizeOutput(cfg, rows, show, tokenizePost)[i].key == MockOutput(rows, show)[i].key
    ensures DetokenizeOutput(cfg, rows, show, detokenizePost)[i].key == MockOutput(rows, show)[i].key
    ensures MockOutput(rows, show)[i].key == if WellFormed(rows[i]) then RowKey(rows[i][0]) else Position(i)
  {
  }

  /**
   * Header names are case-insensitive: a request key that differs from the
   * operation header only in case, and is the only such key, sets the
   * operation (lower-cased).
   */
  lemma OperationHeaderAnyCase(headers: map<string, string>, lower: map<string, string>, k0: string)
    requires Lowered(headers, lower) && k0 in headers && ToLower(k0) == OperationHeader
    requires forall k1 | k1 in headers && ToLower(k1) == OperationHeader :: k1 == k0
    requires headers[k0] != ""
    ensures ReadLabels(lower).operation == ToLower(headers[k0])
  {
    LoweredUnique(headers, lower, k0);
  }

  /**
   * The two handlers differ on header case: a benchmark-config header sent
   * with other capitals (such as "SF-BENCHMARK-CONFIG") reaches this
   * handler's labels, while a case-sensitive lookup (the benchmark
   * handler's) reports "unknown".
   */
  lemma HeaderCaseContrast(k0: string, v: string, lower: map<string, string>)
    requires ToLower(k0) == BenchConfigHeader && k0 != BenchConfigHeader && v != ""
    requires Lowered(map[k0 := v], lower)
    ensures ReadLabels(lower).query.benchConfig == v
    ensures ReadQueryLabels(map[k0 := v]).benchConfig == Unknown
  {
    LoweredUnique(map[k0 := v], lower, k0);
  }
}
