# rollbar-cli read client, modelled in Dafny

This project models the core of `internal/client/client.go` of rollbar-cli, a
command-line client for Rollbar's read API. It covers three things.

1. **The occurrence summary (`FormatOccurrenceData`).** An occurrence payload
   is decoded JSON of any shape: a `map<string, Json>` over a `Json` datatype
   with the cases nil, bool, number, string, array and object. The function
   builds a flat summary from it:
   - `environment` and `level` are copied through;
   - `message` comes from `body.message.body`;
   - `exception_class`, `exception_message` and `backtrace` come from
     `body.trace`, then from `body.trace_chain[0]`;
   - `server` and `request` are projections that are dropped when empty.

   The method `OccurrenceSummary.FormatOccurrenceData` follows the Go code. It
   starts from an empty map and inserts one key per guard. The trace block
   runs once for `trace` and once for the chain head, and the second run
   overwrites the first. The backtrace is built by a loop. The method is
   proved equal to `OccurrenceSummary.Summary`, which defines each summary
   key on its own from its path into the payload. The bridge is
   `SummaryInSourceOrder`: inserting the keys in the code's order builds
   that summary. The lemmas in
   `SummaryProperties` state the summary's promises over that definition.
2. **The list calls (`GetItems`, `GetOccurrences`).** They reject an
   envelope whose `err` is not 0. Otherwise they keep the first `limit`
   entries in the order received and convert each one field by field.
3. **The single-entity calls (`GetItem`, `GetOccurrence`)** and the
   assembly of the items endpoint from the three filters.

The HTTP request and the JSON decoding behind each call are one parameter,
`fetch`, from endpoint to decoded envelope. Go's `%v` rendering (`render`),
the timestamp formatting (`formatTimestamp`) and `url.Values.Encode`
(`encode`) are parameters too. The contracts hold for every choice of them.

Files: `wrappers.dfy` (Option, Result), `json.dfy` (the `Json` value and
Go's map reads and type assertions), `summary.dfy` (the summary definition
and the extraction), `summary_properties.dfy` (what the summary promises),
`client.dfy` (envelopes, endpoint, error codes, truncation).

### Where the code differs from the simple description of the extractor

The extractor is easily described as "use `trace_chain[0]` when there is a
chain, otherwise `trace`". The code does something else, and the model
follows the code:
- `trace` is applied first and the chain head then overwrites it, one
  sub-object at a time. A chain head with no `exception` object leaves
  `trace`'s exception fields in place. A chain head with no `frames` array
  leaves `trace`'s backtrace in place. See `TraceFallback` and
  `MixedTraceExample`.
- When `exception` is an object, both exception keys are written even if
  `class` or `message` is missing; the missing one holds nil (`Null`). See
  `ExceptionKeysTogether`.
- `backtrace` is written whenever `frames` is an array, so it can be an empty
  list. See `BacktracePresence`.

## Model

| member | source | states |
|---|---|---|
| `OccurrenceSummary.FormatOccurrenceData` | internal/client/client.go:282-382 | the map built guard by guard, with the chain head applied after `trace`, is exactly the key-by-key summary; it never fails (no precondition) |
| `OccurrenceSummary.Summary` | internal/client/client.go:282-382 | the summary's keys are always among environment, level, message, exception_class, exception_message, backtrace, server, request |
| `OccurrenceSummary.ExtractBody` | internal/client/client.go:293-339 | the new map is the old one with `message` set from `body.message.body`, and the exception and backtrace keys set from the chain head where it has them and from `trace` otherwise; nothing is written when `body` is not an object, and no other key changes |
| `OccurrenceSummary.ExtractMessage` | internal/client/client.go:294-298 | the new map is the old one with `message` set from `body.message.body` when `message` is an object holding `body`; no other key changes |
| `OccurrenceSummary.ApplyTrace` | internal/client/client.go:300-317 | the new map is the old one with both exception keys overwritten when `exception` is an object (nil for a missing field) and `backtrace` overwritten when `frames` is an array; no other key changes |
| `OccurrenceSummary.WithTraceTwice` | internal/client/client.go:300-337 | running the trace block for `trace` and then for the chain head equals one run in which each sub-object (exception, frames) comes from the chain head when it has it and from `trace` otherwise |
| `OccurrenceSummary.SummaryInSourceOrder` | internal/client/client.go:282-382 | inserting the keys in the order the code writes them (environment, level, message, the trace keys, server, request) into an empty map gives exactly the key-by-key summary |
| `OccurrenceSummary.BuildBacktrace` | internal/client/client.go:305-316 | the loop over the frames yields one line per object frame, in order |
| `OccurrenceSummary.CollectServerInfo` | internal/client/client.go:343-352 | `serverInfo` holds exactly those of host, root and pid that the server object has, with their values |
| `OccurrenceSummary.CollectRequestInfo` | internal/client/client.go:360-375 | `reqInfo` holds exactly those of url, method, user_ip, params and headers that the request object has, with their values |
| `OccurrenceSummary.ExtractServer` | internal/client/client.go:342-356 | the new map is the old one with `server` added only when the server object yields a non-empty projection; no other key changes |
| `OccurrenceSummary.ExtractRequest` | internal/client/client.go:359-379 | the new map is the old one with `request` added only when the request object yields a non-empty projection; no other key changes |
| `SummaryProperties.EnvironmentAndLevelCopied` | internal/client/client.go:285-290 | `environment` and `level` are in the summary exactly when they are in the payload, with the value copied whatever its type |
| `SummaryProperties.MessagePresence` | internal/client/client.go:293-298 | `message` is present exactly when `body` and `body.message` are objects and the latter has key `body`, and holds that value |
| `SummaryProperties.ExceptionKeysTogether` | internal/client/client.go:301-304 | both exception keys are present together, exactly when the active trace has an `exception` object; each is that object's field or nil when missing |
| `SummaryProperties.ChainHeadExceptionWins` | internal/client/client.go:319-324 | when `trace_chain[0]` has an `exception` object, the exception keys come from it whatever `trace` holds |
| `SummaryProperties.ChainHeadFramesWin` | internal/client/client.go:325-336 | when `trace_chain[0]` has a `frames` array, the backtrace is built from it whatever `trace` holds |
| `SummaryProperties.TraceFallback` | internal/client/client.go:300-337 | `trace`'s exception and frames are used wherever the chain head lacks that sub-object; both exception keys then hold `trace`'s `class` and `message` fields |
| `SummaryProperties.MixedTraceExample` | internal/client/client.go:300-337 | a payload with a `trace` exception and a chain head holding only frames reports the `trace` exception with the chain head's (empty) backtrace |
| `SummaryProperties.ObjectFramesFilter` | internal/client/client.go:307-314 | the frames kept are exactly the object frames: the k-th kept frame is at the k-th object position, the positions increase, and every object frame is kept |
| `SummaryProperties.ObjectFramesAppend` | internal/client/client.go:307-314 | the object frames of `a + b` are those of `a` followed by those of `b` (order is preserved) |
| `SummaryProperties.BacktraceLines` | internal/client/client.go:305-316 | the backtrace has one line per object frame, in order, each `render(filename) + ":" + render(lineno) + " in " + render(method)` with nil for a missing field, the `Sprintf` that `OccurrenceSummary.FrameLine` models (client.go:309-312) |
| `SummaryProperties.NonObjectFrameSkipped` | internal/client/client.go:308 | a frame that is not an object adds no line |
| `SummaryProperties.BacktracePresence` | internal/client/client.go:305-316 | `backtrace` is present exactly when the active trace has a `frames` array (even an empty one) and holds its lines |
| `SummaryProperties.FrameLineExample` | internal/client/client.go:312 | the frame `{filename: "a.py", lineno: 10, method: "f"}` gives `a.py:10 in f` when those values render as written |
| `SummaryProperties.ProjectedEmpty` | internal/client/client.go:353 | a projection is non-empty exactly when the source has at least one of the keys |
| `SummaryProperties.ServerAllOrNothing` | internal/client/client.go:342-356 | `server` is present exactly when `data.server` is an object with at least one of host/root/pid, and then holds exactly those keys with their values |
| `SummaryProperties.RequestAllOrNothing` | internal/client/client.go:359-379 | `request` follows the same rule over url/method/user_ip/params/headers |
| `Client.Kept` | internal/client/client.go:168-172 | a list call keeps at most `n` entries and at most `limit`, and none when `limit` is 0 or negative |
| `Client.NonEmptyFiltersExact` | internal/client/client.go:138-147 | the query holds each filter exactly when its value is non-empty, with that value, and nothing else; it is empty exactly when all three filters are |
| `Client.BuildItemsEndpoint` | internal/client/client.go:138-152 | the endpoint is `/items`, with `?` and the encoded query appended exactly when some filter is non-empty |
| `Client.GetItems` | internal/client/client.go:137-187 | a failed fetch becomes `RequestFailed` with its message; `ApiErrorCode(err)` arises exactly when the envelope decoded with `err != 0`; otherwise the result is the first min(limit, n) items in order (none for limit <= 0), each converted field by field by `Client.ToItem` (client.go:173-183) |
| `Client.GetItem` | internal/client/client.go:190-216 | a failed fetch becomes `RequestFailed` with its message; `ApiErrorCode(err)` arises exactly when the envelope decoded with `err != 0`; otherwise the item converted by `Client.ToItem` (client.go:205-215) |
| `Client.GetOccurrences` | internal/client/client.go:219-250 | same as GetItems for the occurrences of an item, fetched from `/item/<id>/instances`, each converted by `Client.ToOccurrence` (client.go:241-246) |
| `Client.GetOccurrence` | internal/client/client.go:253-274 | same as GetItem for one occurrence, fetched from `/instance/<id>` and converted by `Client.ToOccurrence` (client.go:268-273) |

## Left out

- `New` and `doRequest` (internal/client/client.go:21-51): the environment variable, the HTTP transport, the timeout and the status check are I/O. Together with `json.Unmarshal` they are the `fetch` parameter. Their failures reach the model as a message string, which the calls wrap as `RequestFailed`; the error text itself is not modelled.
- `json.Unmarshal` and `json.Number.String()`: decoding, including the normalisation of numeric and string ids, is library behaviour. Ids arrive as the strings it produces.
- `url.Values.Encode`: the ordering and escaping of the query are library behaviour, modelled as the parameter `encode` applied to the map of non-empty filters.
- `formatTimestamp` and `IntToString` (internal/client/client.go:132-134, 385-387): thin wrappers over Go's `time` and `strconv`. Timestamp formatting is the parameter `formatTimestamp`; `IntToString` has no caller in the core.
- Go's `%v` rendering of values (floats, nested arrays and maps in particular) is the parameter `render`. Only the separators and the order of the backtrace line are fixed.
- `GetOccurrenceRaw` (internal/client/client.go:277-279) returns `doRequest`'s bytes unchanged. It is a pure pass-through of I/O.
- JSON numbers are `Num(real)`. The float64 precision and the int64 ranges of ids, counters, timestamps and `limit` are not modelled; the core does no arithmetic on them.
- Aliasing: the Go summary shares nested maps and slices with the payload (for example `params` and `headers`). The model works on values and does not capture that sharing.
- The backtrace is a Go `[]string`; the model stores it as a JSON array of strings, which is how it is marshalled.
- All of `cmd/*.go`: flag wiring, `json.MarshalIndent` and printing.
