# Events service request handler, modelled in Dafny

The events web service answers two kinds of GET request. A request for the
collection returns every event. A request for one event is identified by a
numeric id in the path. The handler `eventHandler` in
`services/events/handlers.go` decides which kind a request is, asks the data
collaborator, and either encodes the result as JSON or answers with status 500.

The model has two modules:

- `Routing` (`routing.dfy`) is the pure part of `ServeHTTP`. The pattern
  `^/(\d+)/?` becomes a character scanner, `ScanDigits`, proved against the
  declarative `IdCapture`: the path is `/`, then a non-empty digit run, and no
  digit follows that run. `strconv.Atoi` with its error discarded becomes
  `Atoi`: it gives the decimal value, saturated at the largest 64-bit `int`.
  `Classify` combines the two into an `Intent`, which is `Collection` or
  `ByIdentifier(id)`.
- `Dispatch` (`dispatch.dfy`) is the imperative part: `getAll`, `getByID` and
  `encodeAsJSON`. The class `Recorder` stands for the response writer `w` and
  the process log. Its `trace` records, in order, each call the handler makes:
  `data.GetAll`, `data.GetByID(id)`, `w.WriteHeader(code)`, `encodeAsJSON(value, w)`
  and `log.Print(err)`. Each method states its new trace through a specification
  function (`GetAllEffects`, `GetByIDEffects`, `ServeEffects`). The lemmas then
  state, through the filter `Filter`, which statuses, bodies, log entries and
  lookups a request produces.

The data collaborator and the JSON encoder are parameters. `Store` holds the
outcome of `data.GetAll` and of `data.GetByID` for every id. The encoder is a
function that says whether encoding a given value fails.

Four behaviours of the code are easy to get wrong, and the model keeps them:

- The pattern has no `$`, so nothing after the digit run is examined:
  `/42/extra`, `/42abc` and `/0042` all ask for event 42.
- The error of `strconv.Atoi` is ignored. A digit run too large for an `int`
  is still looked up by id, with the saturated id `MaxInt`; it never falls
  back to the collection.
- `WriteHeader` is only ever called with 500, and at most once. A successful
  request makes no status call, so the status is the implicit 200.
- On a failed encode, `WriteHeader(500)` comes after the call to
  `encodeAsJSON`, which may already have written to `w`.

## Model

| member | source | states |
|---|---|---|
| `Routing.ScanDigits` | services/events/handlers.go:16-17 | the scanner stops just past the maximal digit run: everything it skipped is a digit, and the next character, if any, is not |
| `Routing.Atoi` | services/events/handlers.go:21 | the parsed id is never negative and never above MaxInt; it equals the decimal value exactly when that value fits, and is MaxInt otherwise, because the range error is discarded |
| `Routing.Classify` | services/events/handlers.go:15-23 | a path gives `ByIdentifier` if and only if some digit run is captured by `^/(\d+)/?`, and `Collection` otherwise; the id is between 0 and MaxInt |
| `Routing.CaptureUnique` | services/events/handlers.go:16-17 | the captured digit run is unique for a given path |
| `Routing.ClassifyByCapture` | services/events/handlers.go:16-22 | whenever the pattern captures `d`, the request goes to getByID with the id that Atoi gives for `d` |
| `Routing.TrailingTextIgnored` | services/events/handlers.go:16-22 | `/` + digits + any text that does not start with a digit goes to getByID with those digits' value; the end of the path is never examined |
| `Routing.LeadingZeroValue` | services/events/handlers.go:21 | a leading zero does not change a digit run's decimal value |
| `Routing.LeadingZerosAccepted` | services/events/handlers.go:16-21 | `/0` + d + rest is classified exactly as `/` + d + rest |
| `Routing.DecimalRoundTrip` | services/events/handlers.go:21 | parsing the decimal spelling of n gives n back |
| `Routing.IdPathRoundTrip` | services/events/handlers.go:16-22 | for every id n that fits in an `int`, `/n` and `/n/` both ask for event n |
| `Routing.OverflowSaturates` | services/events/handlers.go:21-22 | a digit run larger than MaxInt still goes to getByID, with id MaxInt |
| `Routing.Examples` | services/events/handlers.go:16-23 | empty, `/`, `/abc` and `abc/1` are collection requests; `/42`, `/42/`, `/42/extra` and `/42abc` ask for event 42 |
| `Routing.LeadingZerosExample` | services/events/handlers.go:16-21 | `/007` asks for event 7 |
| `Dispatch.DispatchesOnce` | services/events/handlers.go:17-23 | every request queries the data collaborator exactly once and first: GetAll for a collection path, GetByID with the parsed id otherwise |
| `Dispatch.HandlerFilters` | services/events/handlers.go:26-51 | the statuses, encoded bodies and log entries of any request, in closed form in terms of the lookup outcome and the encoder outcome |
| `Dispatch.LookupFailureIs500` | services/events/handlers.go:27-31 | a failed lookup, by either handler, leads to exactly one WriteHeader(500) and no encoded body |
| `Dispatch.OnlyByIDFailureLogs` | services/events/handlers.go:28-30 | only a failed lookup by id is logged, exactly once and with the lookup's error; a failed GetAll and every encode failure log nothing |
| `Dispatch.EncoderDecidesStatus` | services/events/handlers.go:32-36 | after a successful lookup the value found is encoded unchanged, and WriteHeader(500) is called if and only if the encoder fails; otherwise no status call is made |
| `Dispatch.StatusIsFinal` | services/events/handlers.go:26-51 | at most one status is written, it is always 500, and nothing is encoded after it |
| `Dispatch.Recorder.EncodeAsJSON` | services/events/handlers.go:53-56 | records one call of encodeAsJSON with the unchanged value and returns the encoder's outcome for that value |
| `Dispatch.Recorder.GetAll` | services/events/handlers.go:26-37 | appends exactly the GetAll query, then either 500, or the encoding of the list followed by 500 if encoding fails |
| `Dispatch.Recorder.GetByID` | services/events/handlers.go:39-51 | appends exactly the GetByID(id) query, then either 500 followed by a log of the error, or the encoding of the event followed by 500 if encoding fails |
| `Dispatch.Recorder.ServeHTTP` | services/events/handlers.go:15-24 | appends exactly the effects of getAll for a collection path, or of getByID with the classified id otherwise |

`OnlyByIDFailureLogs` covers both handlers. Its counterpart in getByID is
services/events/handlers.go:41-44, and the encode checks are at 33-35 and 47-49.
`LookupFailureIs500` also covers services/events/handlers.go:40-45, and
`EncoderDecidesStatus` also covers 46-50.

## Left out

- Server start-up (`services/events/serve.go`): mux registration, `http.ListenAndServe` and the port variable set by `init`. It is socket and process plumbing with no decision logic.
- The process entry point (`cmd/startAll/main.go`): a goroutine, a `sync.WaitGroup` and `log.Fatal`. It is concurrency and process lifecycle.
- The `init` function that prints a line (services/events/handlers.go:58-60). It is a side effect with no bearing on any request.
- The `data` package is not part of this model. handlers.go uses it without importing it. `data.GetAll` and `data.GetByID` are given as outcomes in a `Store`.
- The JSON encoding itself (`encoding/json`). `encodeAsJSON` is modelled as one call that records the value passed and returns the encoder's outcome. The bytes it writes, including partial output before a failure, are not modelled.
- `Dispatch.Recorder.EncodeAsJSON`: does not distinguish an encoding that fails before anything reaches `w` (a value JSON cannot represent) from one that fails while writing to `w`; both are one recorded call followed by the caller's `WriteHeader(500)`.
- net/http wire behaviour: the implicit 200 on the first write, and `WriteHeader` being ignored once the body has started. The model records the calls the handler makes, not what reaches the client.
- Concurrency between requests. The handler has no state, so each request is modelled on its own. Repeating a request gives the same trace because `ServeEffects` is a function.
- `Routing.Atoi`: Go's `int` is taken to be 64 bits wide. On a 32-bit platform the saturation bound would be 2^31-1.
- `Routing.Classify`: takes the path as a `string` of characters, where Go's string is a sequence of bytes. The pattern examines only `/` and ASCII digits, which are single bytes, so the classification is the same.
- `regexp` and `strconv` in general. Only their effect on this one pattern and on a digit run is modelled.
