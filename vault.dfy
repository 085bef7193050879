/**
 * One vault exchange per sub-batch (lambda/skyflow.go): the retry policy of
 * doWithRetry, and the response shape checks of tokenizeBatch and
 * detokenizeBatch. The HTTP post itself (doPost) and JSON decoding are
 * abstracted by a `post` function: post(url, body, attempt) is what the
 * attempt-th post of `body` to `url` gives back (attempt 0 is the first post,
 * attempt 1 the retry).
 */
module Vault {
  import opened Wrappers
  import opened Text
  import opened Rows

  /** SkyflowConfig. BatchSize and MaxConcurrency are always positive once loaded. */
  datatype SkyflowConfig = SkyflowConfig(
    dataPlaneUrl: string,
    accountId: string,
    apiKey: string,
    vaultId: string,
    tableName: string,
    columnName: string,
    batchSize: int,
    maxConcurrency: int)

  predicate ValidConfig(cfg: SkyflowConfig)
  {
    cfg.batchSize > 0 && cfg.maxConcurrency > 0
  }

  const InsertPath := "/v2/records/insert"
  const DetokenizePath := "/v2/tokens/detokenize"

  /** How much of an error response body is quoted in the error message. */
  const MaxErrorBody: nat := 200

  // Request and (decoded) response bodies of the two endpoints.
  datatype TokenizeRequest = TokenizeRequest(vaultId: string, tableName: string, records: seq<map<string, string>>)
  datatype TokenEntry = TokenEntry(token: string)
  datatype TokenizeResponse = TokenizeResponse(records: seq<map<string, seq<TokenEntry>>>)
  datatype DetokenizeRequest = DetokenizeRequest(vaultId: string, tokens: seq<string>)
  datatype DetokenizeEntry = DetokenizeEntry(token: string, value: string)
  datatype DetokenizeResponse = DetokenizeResponse(response: seq<DetokenizeEntry>)

  /**
   * The outcome of one doPost: a transport-level error, or a status code with
   * the response body and what decoding that body as JSON gives.
   */
  datatype Reply<R> =
    | PostFailed(message: string)
    | Replied(status: int, body: string, decoded: Result<R, string>)

  type Post<!Q, R> = (string, Q, nat) -> Reply<R>

  /** The errors a sub-batch can end with; Message() is the text of the Go error. */
  datatype BatchError =
    | RequestFailed(message: string)
    | BadStatus(status: int, excerpt: string)
    | BadJson(operation: string, message: string)
    | RecordCountMismatch(expected: nat, got: nat)
    | EntryCountMismatch(expected: nat, got: nat)
    | NoToken(column: string, record: nat)
  {
    function Message(): string
    {
      match this
      case RequestFailed(m) => m
      case BadStatus(s, e) => "skyflow API returned " + Decimal(s) + ": " + e
      case BadJson(op, m) => op + ": unmarshal response: " + m
      case RecordCountMismatch(e, g) => "tokenize: expected " + Decimal(e) + " records, got " + Decimal(g)
      case EntryCountMismatch(e, g) => "detokenize: expected " + Decimal(e) + " entries, got " + Decimal(g)
      case NoToken(c, i) => "tokenize: no token for column " + Quote(c) + " in record " + Decimal(i)
    }
  }

  /**
   * An error wraps its cause: a transport error's text is passed on as it is,
   * a bad status ends with the body excerpt and a decoding error with the
   * decoder's message.
   */
  lemma MessageCarriesCause(e: BatchError)
    ensures e.RequestFailed? ==> e.Message() == e.message
    ensures e.BadStatus? ==> EndsWith(e.Message(), e.excerpt)
    ensures e.BadJson? ==> EndsWith(e.Message(), e.message)
  {
  }

  /** Go's `%q` for a string without quotes, backslashes or control characters. */
  function Quote(s: string): (r: string)
    ensures |r| == |s| + 2 && r[0] == '"' && r[|r| - 1] == '"'
    ensures r[1..|r| - 1] == s
  {
    "\"" + s + "\""
  }

  /** truncate: s itself when it is short enough, else its first maxLen characters and "...". */
  function Truncate(s: string, maxLen: nat): (r: string)
    ensures |s| <= maxLen ==> r == s
    ensures |s| > maxLen ==> |r| == maxLen + 3 && r[..maxLen] == s[..maxLen] && r[maxLen..] == "..."
  {
    if |s| <= maxLen then s else s[..maxLen] + "..."
  }

  predicate Retryable(status: int) { status >= 500 || status == 429 }

  predicate IsSuccess(status: int) { 200 <= status < 300 }

  /** What doWithRetry did: how many posts it made, and the decoded body or the error. */
  datatype Exchange<R> = Exchange(posts: nat, outcome: Result<Result<R, string>, BatchError>)

  /**
   * doWithRetry: one post, and a second one only when the first produced a
   * response with status >= 500 or 429 (after a fixed delay, not modelled).
   * The last post decides: a transport error is returned as is, a non-2xx
   * status becomes BadStatus with the first 200 characters of the body, a
   * 2xx status hands on the body.
   */
  function DoWithRetry<Q, R>(url: string, body: Q, post: Post<Q, R>): (ex: Exchange<R>)
    ensures ex.posts == 1 || ex.posts == 2
    ensures ex.posts == 2 <==> post(url, body, 0).Replied? && Retryable(post(url, body, 0).status)
    ensures var last := post(url, body, ex.posts - 1);
      && (ex.outcome.Ok? <==> last.Replied? && IsSuccess(last.status))
      && (last.PostFailed? ==> ex.outcome == Err(RequestFailed(last.message)))
      && (last.Replied? && IsSuccess(last.status) ==> ex.outcome == Ok(last.decoded))
      && (last.Replied? && !IsSuccess(last.status) ==>
            ex.outcome == Err(BadStatus(last.status, Truncate(last.body, MaxErrorBody))))
  {
    var first := post(url, body, 0);
    if first.PostFailed? then Exchange(1, Err(RequestFailed(first.message)))
    else
      var posts := if Retryable(first.status) then 2 else 1;
      var last := post(url, body, posts - 1);
      if last.PostFailed? then Exchange(posts, Err(RequestFailed(last.message)))
      else if !IsSuccess(last.status) then Exchange(posts, Err(BadStatus(last.status, Truncate(last.body, MaxErrorBody))))
      else Exchange(posts, Ok(last.decoded))
  }

  // ---- tokenizeBatch ----

  /** One record `{column: value}` per item, in order. */
  function InsertRecords(column: string, items: seq<Item>): seq<map<string, string>>
  {
    seq(|items|, i requires 0 <= i < |items| => map[column := items[i].value])
  }

  function TokenizeExchange(cfg: SkyflowConfig, items: seq<Item>, post: Post<TokenizeRequest, TokenizeResponse>): Exchange<TokenizeResponse>
  {
    DoWithRetry(cfg.dataPlaneUrl + InsertPath,
                TokenizeRequest(cfg.vaultId, cfg.tableName, InsertRecords(cfg.columnName, items)), post)
  }

  predicate HasToken(record: map<string, seq<TokenEntry>>, column: string)
  {
    column in record && |record[column]| > 0
  }

  /**
   * The token loop of tokenizeBatch: the first entry's token of every record,
   * or NoToken for the first record that lacks the column or has no entries.
   */
  function FirstTokens(records: seq<map<string, seq<TokenEntry>>>, column: string): (r: Result<seq<string>, BatchError>)
    ensures r.Ok? <==> forall i | 0 <= i < |records| :: HasToken(records[i], column)
    ensures r.Ok? ==>
      && |r.value| == |records|
      && forall i | 0 <= i < |records| :: r.value[i] == records[i][column][0].token
    ensures r.Err? ==>
      && r.error.NoToken? && r.error.column == column && r.error.record < |records|
      && !HasToken(records[r.error.record], column)
      && forall i | 0 <= i < r.error.record :: HasToken(records[i], column)
    decreases |records|
  {
    if |records| == 0 then Ok([])
    else
      var n := |records| - 1;
      var init := FirstTokens(records[..n], column);
      if init.Err? then init
      else if !HasToken(records[n], column) then Err(NoToken(column, n))
      else Ok(init.value + [records[n][column][0].token])
  }

  /**
   * tokenizeBatch: an exchange error is passed on, an undecodable body, a
   * record count different from the item count, or a record without a token
   * is an error; otherwise token i is the first token of record i.
   */
  function TokenizeBatch(cfg: SkyflowConfig, items: seq<Item>, post: Post<TokenizeRequest, TokenizeResponse>): (r: Result<seq<string>, BatchError>)
    ensures r.Ok? ==> |r.value| == |items|
    ensures var ex := TokenizeExchange(cfg, items, post);
      r.Ok? <==>
        && ex.outcome.Ok? && ex.outcome.value.Ok?
        && |ex.outcome.value.value.records| == |items|
        && forall i | 0 <= i < |items| :: HasToken(ex.outcome.value.value.records[i], cfg.columnName)
    ensures var ex := TokenizeExchange(cfg, items, post);
      r.Ok? ==> forall i | 0 <= i < |items| ::
        r.value[i] == ex.outcome.value.value.records[i][cfg.columnName][0].token
    ensures var ex := TokenizeExchange(cfg, items, post);
      && (ex.outcome.Err? ==> r == Err(ex.outcome.error))
      && (ex.outcome.Ok? && ex.outcome.value.Err? ==> r == Err(BadJson("tokenize", ex.outcome.value.error)))
      && (ex.outcome.Ok? && ex.outcome.value.Ok? && |ex.outcome.value.value.records| != |items| ==>
            r == Err(RecordCountMismatch(|items|, |ex.outcome.value.value.records|)))
    ensures var ex := TokenizeExchange(cfg, items, post);
      ex.outcome.Ok? && ex.outcome.value.Ok? && |ex.outcome.value.value.records| == |items| && r.Err? ==>
        var records := ex.outcome.value.value.records;
        && r.error.NoToken? && r.error.column == cfg.columnName && r.error.record < |items|
        && !HasToken(records[r.error.record], cfg.columnName)
        && forall i | 0 <= i < r.error.record :: HasToken(records[i], cfg.columnName)
  {
    var ex := TokenizeExchange(cfg, items, post);
    if ex.outcome.Err? then Err(ex.outcome.error)
    else if ex.outcome.value.Err? then Err(BadJson("tokenize", ex.outcome.value.error))
    else
      var resp := ex.outcome.value.value;
      if |resp.records| != |items| then Err(RecordCountMismatch(|items|, |resp.records|))
      else FirstTokens(resp.records, cfg.columnName)
  }

  // ---- detokenizeBatch ----

  function DetokenizeExchange(cfg: SkyflowConfig, tokens: seq<string>, post: Post<DetokenizeRequest, DetokenizeResponse>): Exchange<DetokenizeResponse>
  {
    DoWithRetry(cfg.dataPlaneUrl + DetokenizePath, DetokenizeRequest(cfg.vaultId, tokens), post)
  }

  /**
   * detokenizeBatch: an exchange error is passed on, an undecodable body or an
   * entry count different from the token count is an error; otherwise value i
   * is the value of entry i — the token the entry echoes is never looked at.
   */
  function DetokenizeBatch(cfg: SkyflowConfig, tokens: seq<string>, post: Post<DetokenizeRequest, DetokenizeResponse>): (r: Result<seq<string>, BatchError>)
    ensures r.Ok? ==> |r.value| == |tokens|
    ensures var ex := DetokenizeExchange(cfg, tokens, post);
      r.Ok? <==> ex.outcome.Ok? && ex.outcome.value.Ok? && |ex.outcome.value.value.response| == |tokens|
    ensures var ex := DetokenizeExchange(cfg, tokens, post);
      r.Ok? ==> forall i | 0 <= i < |tokens| :: r.value[i] == ex.outcome.value.value.response[i].value
    ensures var ex := DetokenizeExchange(cfg, tokens, post);
      && (ex.outcome.Err? ==> r == Err(ex.outcome.error))
      && (ex.outcome.Ok? && ex.outcome.value.Err? ==> r == Err(BadJson("detokenize", ex.outcome.value.error)))
      && (ex.outcome.Ok? && ex.outcome.value.Ok? && |ex.outcome.value.value.response| != |tokens| ==>
            r == Err(EntryCountMismatch(|tokens|, |ex.outcome.value.value.response|)))
  {
    var ex := DetokenizeExchange(cfg, tokens, post);
    if ex.outcome.Err? then Err(ex.outcome.error)
    else if ex.outcome.value.Err? then Err(BadJson("detokenize", ex.outcome.value.error))
    else
      var resp := ex.outcome.value.value;
      if |resp.response| != |tokens| then Err(EntryCountMismatch(|tokens|, |resp.response|))
      else Ok(seq(|tokens|, i requires 0 <= i < |tokens| => resp.response[i].value))
  }
}
