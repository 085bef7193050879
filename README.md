# SnowflakePerformance vault client and external-function handlers, in Dafny

This project models the Go Lambda functions that serve Snowflake external-function
calls, together with their client for the Skyflow v2 vault API:

- **Vault client** (`lambda/skyflow.go`):
  - `Tokenize`: normalise the rows, split them into sub-batches of `BatchSize`, insert each sub-batch, and write each token back at its row's position.
  - `Detokenize`: deduplicate the tokens in first-occurrence order, split them, detokenize each sub-batch, and fan every value back to all rows that carry the token.
  - The per-sub-batch exchanges `tokenizeBatch`, `detokenizeBatch` and `doWithRetry`: one retry on a status >= 500 or 429, and a non-2xx status becomes an error carrying a truncated body.
  - The latency summary, the sub-batch splitting, and the configuration read from environment variables.
- **Handler** (`lambda/main.go`):
  - lower-cases the header keys and reads the batch labels and the operation (default `detokenize`);
  - answers 400 to an unparsable body and, when a vault client is configured, to an unknown operation (without a client every operation gets the mock rows);
  - without a client, answers with a mock transform that prefixes `DETOK_`.
- **Benchmark Lambda** (`snowflake_ext_func_benchmark/lambda/main.go`):
  - answers with the same mock transform;
  - reads its labels case-sensitively;
  - writes one metric record per batch under the sort key `batchId#receiveTs`, into a table read at start-up, together with a simulated delay.

Modelling choices:

- **Row fields.** A Go `interface{}` row field is an abstract type `Value`. Its `%v` rendering is a function parameter `show`.
- **Output rows.** An output row is `OutRow(key, text)`. The key is either the row's own `row[0]` or, for a row with fewer than two fields, its position.
- **doPost.** The HTTP post is an oracle `post(url, body, attempt)`. It gives a transport error, or a status together with the body and its JSON decoding. Attempt 0 is the first post and attempt 1 the retry.
- **Environment.** The environment is a `map<string, string>`.
- **Clock readings.** These are parameters: the per-call latencies `callMs(k)`, the receive timestamp and the processing duration.
- **Imperative code stays imperative.** This covers the row loops, the dispatch loops, the write-back into the result array, the fan-out, the configuration loop, the header loop and the mock loop. Each method is proved against a specification. Most are proved equal to a specification function. The write-back and dispatch methods (`StoreTokenized`, `StoreRefs`, `Dispatch`, `FanOut`) are proved against predicates that say what each slot holds and that no other slot changes. `LowerHeaders` is proved against the relation `Lowered`, because Go's map order leaves its result open. The source's promises are proved as lemmas about these specifications.

## Model

| member | source | states |
|---|---|---|
| Text.Atoi | lambda/skyflow.go:118-125 | strconv.Atoi: a success lies in the int64 range and comes from a non-empty text made of digits, with at most a leading '+' or '-' and at least one digit; every other text is an error |
| Text.AtoiDigits | lambda/skyflow.go:118-125 | a run of digits, unsigned or after '+', reads as its value when that is at most the int64 maximum, and after '-' as its negation when that is at least the int64 minimum; otherwise an error; with Atoi's contract this decides every input |
| Text.AtoiEdgeCases | lambda/skyflow.go:118-125 | "+7" and "007" read as 7 and "-0" as 0; "", "+", "-", "1_0" and " 1" are errors |
| Text.Decimal | lambda/skyflow.go:259 | `%d`: a leading '-' exactly for a negative number, then a non-empty run of digits without a leading zero; `DecimalRoundTrip` fixes its value |
| Text.DecimalRoundTrip | snowflake_ext_func_benchmark/lambda/main.go:132 | Atoi reads back every int64 that `%d` writes |
| Text.ToLower | lambda/main.go:52-55 | lower-casing keeps the length and leaves no upper-case ASCII letter |
| Text.ToLowerFixedPoints | lambda/main.go:65 | lower-casing is idempotent, and the lower-case strings are exactly its fixed points |
| Text.OrElse | lambda/main.go:62-75 | a non-empty value is kept; an empty one is replaced by the default, so the result is non-empty when the default is |
| Config.EnvOrDefault | lambda/skyflow.go:111-116 | the variable's value when it is non-empty, else the fallback |
| Config.EnvIntOrDefault | lambda/skyflow.go:118-125 | the parsed variable when Atoi succeeds with a positive value; the fallback in every other case (unset, not a number, zero, negative); positive whenever the fallback is |
| Config.PerEntitySnoc | lambda/skyflow.go:71-85 | one more entity adds its configuration exactly when its SKYFLOW_VAULT_ID_{entity} is set |
| Config.LoadSkyflowConfigs | lambda/skyflow.go:53-109 | the entity loop builds exactly the per-entity map, with a fallback to SKYFLOW_VAULT_ID under "NAME"; nothing without a URL or without any vault id |
| Config.LoadedConfigsValid | lambda/skyflow.go:53-109 | every loaded configuration has a positive batch size and concurrency and a non-empty data-plane URL |
| Config.NoConfigsIff | lambda/skyflow.go:55-94 | mock mode (no configurations) exactly when the URL is empty, or when neither per-entity nor single vault ids are set |
| Config.PerEntityConfigs | lambda/skyflow.go:71-85 | with any per-entity vault id set, the keys are exactly those entities; each has table "table1", the lower-cased entity as column and its own vault id |
| Config.FallbackOnly | lambda/skyflow.go:88-105 | without per-entity ids, SKYFLOW_VAULT_ID gives the only configuration, under "NAME", with the table and column defaults |
| Vault.Quote | lambda/skyflow.go:266 | `%q` of a string that needs no escapes: the string between two double quotes, recoverable by dropping them |
| Vault.MessageCarriesCause | lambda/skyflow.go:255-422 | the sub-batch error messages wrap their cause: a transport error is passed on as it is, a bad status ends with the body excerpt, and a decoding error ends with the decoder's message |
| Vault.Truncate | lambda/skyflow.go:509-514 | a short string is kept; a longer one becomes its first maxLen characters followed by "..." |
| Vault.DoWithRetry | lambda/skyflow.go:406-426 | one post, plus a second exactly when the first replied with a status >= 500 or 429; the last post decides: transport error, 2xx body, or an error with the status and the body truncated to 200 |
| Vault.FirstTokens | lambda/skyflow.go:262-269 | succeeds exactly when every record has a non-empty entry list for the column, giving entry[0].Token per record; otherwise it reports the first record without one |
| Vault.TokenizeBatch | lambda/skyflow.go:234-272 | succeeds exactly when the exchange, the decoding, the record count and every record's token succeed; the tokens are positional; each failure has its own error, and a record without a token gives NoToken for the first such record |
| Vault.DetokenizeBatch | lambda/skyflow.go:376-402 | succeeds exactly when the exchange, the decoding and the entry count succeed; values are taken by position (entry tokens are not checked); each failure has its own error |
| Chunking.Chunks | lambda/skyflow.go:485-495 | every sub-batch is non-empty and at most size long, and all but the last are exactly size long |
| Chunking.Split | lambda/skyflow.go:485-507 | the `i += size` loop produces exactly Chunks(items, size) |
| Chunking.ChunksConcat | lambda/skyflow.go:497-507 | the sub-batches, concatenated in order, give back the input: nothing lost, duplicated or reordered |
| Chunking.ChunksCount | lambda/skyflow.go:322-323 | there are ceil(n / size) sub-batches |
| Chunking.ChunkOf | lambda/skyflow.go:322 | every element lands at some position of some sub-batch |
| Metrics.ComputeLatencyStats | lambda/skyflow.go:460-477 | the loop computes LatencyStats: nothing changes for no latencies; otherwise min, max and the integer average |
| Metrics.LatencyStatsBounds | lambda/skyflow.go:460-477 | with no latencies, the metrics are unchanged; otherwise min and max are latencies, bound every latency, and min <= avg <= max; the counters are untouched |
| Metrics.MinMaxBound | lambda/skyflow.go:465-475 | the running min and max are elements of the list and bound it |
| Metrics.SumBound | lambda/skyflow.go:468 | n * min <= sum <= n * max |
| Metrics.DivBounds | lambda/skyflow.go:476 | the integer average lies between min and max |
| Rows.Items | lambda/skyflow.go:171-182 | the items are the well-formed rows, in increasing position, each with its own key and value, one per well-formed row |
| Rows.ItemAt | lambda/skyflow.go:171-182 | the well-formed row i is the item at index Rank(i) and at no other index |
| Tokenizer.NormalizeRows | lambda/skyflow.go:171-182 | the row loop builds Items and writes [i, "ERROR: missing value"] for every short row; the slots of well-formed rows are left as they were |
| Tokenizer.StoreTokenized | lambda/skyflow.go:211-221 | each item of the sub-batch gets [rowKey, token j] or [rowKey, "ERROR: " + err]; no other slot changes |
| Tokenizer.Dispatch | lambda/skyflow.go:193-226 | sub-batch by sub-batch: the latency list, the error count, placeholders kept, and every item placed with its sub-batch's answer; no slot outside the items' positions changes |
| Tokenizer.Tokenize | lambda/skyflow.go:167-232 | the rows and metrics equal TokenizeOutput and TokenizeMetrics |
| Tokenizer.TokenizeRowResult | lambda/skyflow.go:199-221 | item j of sub-batch k comes from its row, and that row's output is its key with tokenizeBatch's answer j for that sub-batch |
| Tokenizer.TokenizeMalformedRow | lambda/skyflow.go:173-176 | a short row is answered [i, "ERROR: missing value"] and is in no sub-batch |
| Tokenizer.TokenizeSendsEveryRowOnce | lambda/skyflow.go:171-190 | every well-formed row is sent exactly once, with its key and its `%v` value |
| Tokenizer.TokenizeMetricsFacts | lambda/skyflow.go:168-190 | TotalRows = rows; UniqueTokens = well-formed rows; SkyflowCalls = ceil(well-formed / BatchSize); errors <= calls; the latency fields are zero without calls and ordered otherwise |
| Assembly.ErrorTextReadsBack | lambda/skyflow.go:217 | `"ERROR: %v"`: a fixed prefix, and the error's message can be read back after it |
| Assembly.Failures | lambda/skyflow.go:212-215 | the error count is at most the number of sub-batches |
| Dedup.TokenMap | lambda/skyflow.go:300-314 | every token of a well-formed row is a key; each key lists only rows that carry it, in increasing position |
| Dedup.RefOf | lambda/skyflow.go:313 | every well-formed row is listed under its token |
| Dedup.Distinct | lambda/skyflow.go:301-312 | orderedTokens has no duplicate and holds exactly the keys of tokenMap |
| Dedup.DistinctOrder | lambda/skyflow.go:310-312 | orderedTokens is in first-occurrence order |
| Dedup.FirstCarrier | lambda/skyflow.go:309-313 | the first row listed under a token is the first row carrying it |
| Dedup.DistinctCount | lambda/skyflow.go:316 | there are never more unique tokens than well-formed rows |
| Dedup.Deduplicate | lambda/skyflow.go:303-314 | the row loop builds exactly TokenMap and Distinct, and the short-row placeholders; the slots of well-formed rows are left as they were |
| Detokenizer.ZipAt | lambda/skyflow.go:355-357 | with distinct tokens, valueMap holds each token's own value |
| Detokenizer.Collect | lambda/skyflow.go:334-360 | the dispatch loop builds valueMap from every sub-batch's values or error text, and computes the latency list and the error count |
| Detokenizer.StoreRefs | lambda/skyflow.go:368-370 | every row listed under a token gets [rowKey, val]; no other slot changes |
| Detokenizer.FanOut | lambda/skyflow.go:366-371 | in any visiting order, every well-formed row ends with its key and its token's value; the short-row placeholders stay |
| Detokenizer.Detokenize | lambda/skyflow.go:291-374 | the rows and metrics equal DetokenizeOutput and DetokenizeMetrics |
| Detokenizer.DetokenizeSendsEachTokenOnce | lambda/skyflow.go:303-322 | the tokens sent have no duplicate, are as many as the distinct tokens, include every well-formed row's token, and are all carried by some row |
| Detokenizer.DetokenizeKeyPresent | lambda/skyflow.go:366-367 | valueMap has an entry for every well-formed row's token, so the "" default never appears |
| Detokenizer.DetokenizeRowResult | lambda/skyflow.go:342-370 | the well-formed row i gets its key and answer j of detokenizeBatch on the sub-batch k that holds its token |
| Detokenizer.DetokenizeValueAt | lambda/skyflow.go:348-357 | the value for item j of sub-batch k is that sub-batch's answer j |
| Detokenizer.DetokenizeSharedToken | lambda/skyflow.go:366-371 | rows carrying the same token receive the same text |
| Detokenizer.DetokenizeMetricsFacts | lambda/skyflow.go:293-363 | TotalRows = rows; UniqueTokens = distinct tokens <= well-formed rows; SkyflowCalls = ceil(unique / BatchSize); errors <= calls; latency fields as for tokenize |
| ExternalFunction.ReadQueryLabels | snowflake_ext_func_benchmark/lambda/main.go:78-90 | each of the three labels is the header value, or "unknown" when that is missing or empty; never empty |
| ExternalFunction.Success | lambda/main.go:156-160 | status 200, Content-Type application/json, and the rows unchanged as data |
| ExternalFunction.BadRequest | lambda/main.go:78-84 | status 400 with no headers; the error message is "invalid request body: " followed by the parser's error |
| ExternalFunction.MockRespond | lambda/main.go:121-130 | the mock loop gives one row per request row: [i, "DETOK_ERROR_MISSING_VALUE"] or [row[0], "DETOK_" + `%v` of row[1]] |
| ExternalFunction.Unmock | snowflake_ext_func_benchmark/lambda/main.go:118 | not code of the source: the inverse of the "DETOK_" prefix written there, used to state MockRoundTrip; it strips the prefix exactly when it is present |
| ExternalFunction.MockRoundTrip | snowflake_ext_func_benchmark/lambda/main.go:110-119 | every mock answer carries the prefix; a well-formed row keeps row[0] as key and its token text after the prefix; a short row is answered at its position |
| Handler.LowerHeaders | lambda/main.go:52-55 | every request key has its lower-cased form in the result, and every entry holds the value of some key with that form, in any visiting order |
| Handler.LoweredKeys | lambda/main.go:52-55 | every key of the lowered headers is lower-case |
| Handler.LoweredUnique | lambda/main.go:52-55 | a key that no other key equals up to case keeps its value |
| Handler.ReadLabels | lambda/main.go:57-75 | the labels default to "unknown"; the operation defaults to "detokenize" and is lower-cased, never empty |
| Handler.UnknownOperation | lambda/main.go:102-106 | status 400 with no headers; the error message is "unknown operation: " followed by the operation name |
| Handler.Handle | lambda/main.go:46-161 | the labels come from some lowering of the headers; the answer and metrics equal Respond and RespondMetrics for that operation |
| Handler.RespondStatus | lambda/main.go:78-160 | 400 exactly for an unparsable body or, with a client, an unknown operation; otherwise 200 with Content-Type application/json and one row per request row |
| Handler.NoVaultCall | lambda/main.go:97-107 | without a client or with an unknown operation the answer does not depend on the vault, and there are no metrics |
| Handler.MockIgnoresOperation | lambda/main.go:116-131 | without a client, every operation is answered with the mock rows |
| Handler.AnswerKeysAgree | lambda/main.go:93-130 | tokenize, detokenize and mock answers share their row keys: row[0], or the position of a short row |
| Handler.OperationHeaderAnyCase | lambda/main.go:50-65 | the operation header is found in any capitalisation |
| Handler.HeaderCaseContrast | lambda/main.go:52-60 | a capitalised benchmark-config header reaches this handler's labels but not a case-sensitive lookup |
| Benchmark.MetricsTable | snowflake_ext_func_benchmark/lambda/main.go:52-55 | DYNAMODB_TABLE, or "ext_func_benchmark_metrics" when it is empty; never empty |
| Benchmark.SimulatedDelayMs | snowflake_ext_func_benchmark/lambda/main.go:57-63 | positive exactly when SIMULATED_DELAY_MS parses as a positive integer, and then that value; 0 otherwise |
| Benchmark.Globals.Init | snowflake_ext_func_benchmark/lambda/main.go:49-71 | init sets the table name, the simulated delay and whether DynamoDB is available |
| Benchmark.SortKey | snowflake_ext_func_benchmark/lambda/main.go:132 | the key `%s#%d` is the batch id, a '#', and a timestamp part with no '#', so its last '#' is the separator |
| Benchmark.SortKeyRoundTrip | snowflake_ext_func_benchmark/lambda/main.go:132 | the sort key `batchId#receiveTs` splits back, at its last '#', into the batch id and the timestamp |
| Benchmark.SortKeyInjective | snowflake_ext_func_benchmark/lambda/main.go:132 | two records share a sort key only when both batch id and timestamp agree |
| Benchmark.Record | snowflake_ext_func_benchmark/lambda/main.go:126-137 | query id, batch id and configuration come from the labels, and the timestamp, batch size and duration are the ones given; for an int64 timestamp the sort key reads back as the record's own batch id and timestamp |
| Benchmark.Handle | snowflake_ext_func_benchmark/lambda/main.go:73-166 | labels from the headers as sent; the answer is the mock rows or 400; a record keyed by query id and sort key is put only after a parsed body and with DynamoDB |
| Benchmark.BenchStatus | snowflake_ext_func_benchmark/lambda/main.go:92-165 | 400 exactly for an unparsable body, with its error message; otherwise 200 with a JSON content type and one row per request row |

## Left out

- Concurrency: the goroutines, the semaphore bounded by `MaxConcurrency`, the WaitGroup and the mutex (lambda/skyflow.go:193-226, 326-360). The sub-batches run one after another in batch order. Each writes disjoint slots, and the detokenize fan-out is proved for every visiting order. The in-flight bound cannot be stated sequentially.
- Per-call latencies: these are listed in dispatch order, whereas the source appends them in completion order. This affects no statistic.
- HTTP and JSON: `NewSkyflowClient`, `doPost`, request headers, and JSON encoding and decoding. Posting is an oracle, and decoded bodies are datatypes. The handler bodies are a parsed row list or the parser's error text. Response bodies are rows or an error message, not JSON text.
- The response-marshalling 500 is left out, because marshalling decoded rows cannot fail. The 500 for a failed vault operation is not modelled either, because `Tokenize` and `Detokenize` never return an error.
- Time: `time.Now`, the 500 ms retry sleep, the simulated-delay sleep, `SkyflowWallMs`, and the logged Lambda overhead (processing time minus `SkyflowWallMs`).
- Floating point: `DedupPct`.
- Logging and platform: `log.Printf`, the invocation counter, the instance id (also left out of the metric record), `lambda.Start`, and DynamoDB `MarshalMap`/`PutItem` with its ignored errors. A write is returned as the item that would be put.
- Handler client: `lambda/main.go:36` calls `loadSkyflowConfig`, which is not part of this model, since `lambda/skyflow.go` only defines `loadSkyflowConfigs`. The handler therefore takes an optional configuration. `Config.LoadedConfigsValid` shows that every configuration loaded through `loadSkyflowConfigs` satisfies the positive batch size and concurrency the client operations require (`ValidConfig`, and `Split`'s positive size).
- Non-positive sizes: the client operations require `ValidConfig` and `Split` a positive size, so the source's behaviour outside that range is not modelled. With BatchSize 0 and a non-empty list, the `i += size` loop of lambda/skyflow.go:485-507 never ends. A negative BatchSize makes `items[i:end]` panic on a non-empty list, and a negative MaxConcurrency makes `make` panic. With MaxConcurrency 0 and at least one sub-batch, `make(chan struct{}, 0)` makes every goroutine block on the semaphore, so `wg.Wait` never returns. `loadSkyflowConfigs` never produces such values.
- Simulated delay in `lambda/main.go`: `simulatedDelay` is never assigned there, so it is always 0.
- Benchmark.SimulatedDelayMs: keeps milliseconds. The int64 nanosecond overflow of `time.Duration(ms) * time.Millisecond` for very large values only affects the sleep, which is left out.
- Integer widths: counts and latencies are unbounded naturals, and the int64 overflow of the latency sum is not modelled. Atoi and the sort key do model the int64 range.
- Text: Go strings are byte strings, while here they are character sequences, so `Truncate` counts characters, not bytes. Lower-casing covers ASCII letters only. Go's `%q` is modelled for strings that need no escapes.
- The vault oracle: it answers by URL, body and attempt number. Two sub-batches with equal request bodies therefore get equal replies.
- Cancellation: the context passed to the HTTP request.
- The live round-trip test (`lambda/skyflow_test.go`): it depends on the vault itself, so it cannot be a property of this model.
- Detokenizer.Zip: its contract states only that every token sent is a key. Keys outside the sent tokens never arise and are not excluded by the contract.
- Handler.Handle: when two request header keys differ only in case, the source keeps whichever it visits last, in Go's random map order. The contract states only that the labels come from some lowering of the headers.
