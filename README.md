# A verified model of the IOTA SDK's request logging, fold combinators, UI-language value object and test harness

This project models four pieces of the IOTA SDK (a Go framework for
multi-tenant business applications) and proves properties about them in
Dafny.

- **Request logging middleware** (`pkg/middleware/logging.go`, module
  `Logging`). `WithLogger`'s handler resolves a request id and the client
  IP from configurable headers, with fallbacks. It logs the request headers.
  When body logging is on and the content type passes a case-insensitive
  allow-list, it reads, restores and parses the request body, and answers
  500 or 400 itself when the read or the parse fails. For a form body sent
  with POST, PUT or PATCH, `r.ParseForm` reads the restored body again, so
  the next handler is handed a drained body; the model follows the code
  here (see "## Findings"). It sets the
  correlation headers and runs the next handler through a status-recording
  writer. It then logs the final status and, optionally, the response body.
  The status-recording writer (`statusResponseWriter`) is a class over a
  sink class standing for the underlying `http.ResponseWriter`.
- **Fold combinators** (`pkg/fp/reduce.go`, module `Fp`). `Reduce`,
  `ReduceWithIndex` and `ReduceWithSlice` each return a closure that keeps
  the accumulator across calls. Each closure is a class whose `acc` field
  is the captured variable, and whose `Apply` has the range loop. Each
  `Apply` is proved against a fold function, and the folds are related to
  each other and to the textbook left fold.
- **UI language value object**
  (`internal/domain/aggregates/user/value_objects.go`, module
  `UserValueObjects`). `NewUILanguage` is a smart constructor that admits
  only the three supported languages, else returns `""` and an error.
- **Integration-test harness** (`pkg/itf/suite.go`, module `Itf`). It covers
  the `Suite` builder and the context its router middleware builds per
  request: hooks, then the standard attachments, then the custom
  middlewares, with the context modelled as the sequence of layers applied.
  It also covers the `Request` builder and the `MultipartData` builder.

Two small modules hold the standard-library pieces these use.
- `Text`: `strings.ToLower`, `strings.Contains` and `strings.Join`.
- `Http`: `http.Header` / `url.Values` `Get`, `Set` and `Add`.
`Wrappers` holds `Option`, which models Go's nil.

Things supplied to the model as values:
- Foreign results: the JSON, XML and form parsers' verdicts, a freshly
  generated UUID, and the span's trace ids.
- The downstream handler, as the list of calls it makes on the writer.
- The bytes the response can be read back as.
- json.Marshal's output, url.Values.Encode's output, and the multipart
  writer's bytes and boundary.

Go map iteration has no fixed order. The model picks keys with
`:|`, so every proof holds for every visiting order.

## Model

| member | source | states |
|---|---|---|
| Logging.RealIP | pkg/middleware/logging.go:82-87 | The client IP is the configured real-IP header's first value or the peer address, and it is empty only when the peer address is. |
| Logging.RealIPFallback | pkg/middleware/logging.go:82-87 | The first value of the configured real-IP header is used verbatim when non-empty. The peer address is used exactly when that header is absent, has no values or is empty. Setting the header to `v` yields `v` unless `v` is empty. |
| Logging.RequestID | pkg/middleware/logging.go:89-94 | The request id is the configured header's first value or the generated id, and it is empty only when the generated id is. |
| Logging.RequestIDFallback | pkg/middleware/logging.go:89-94 | The configured request-id header is echoed when non-empty, else the generated id is used. The result is never empty when the generated id is not. |
| Logging.FormatHeaders | pkg/middleware/logging.go:123-131 | The logged header map has exactly the keys whose value list is non-empty, each mapped to its first value, whatever order the keys are visited in. |
| Logging.FormatFormValues | pkg/middleware/logging.go:133-139 | The logged form map keeps every key, maps it to its values joined with ",", and maps an empty list to "". |
| Logging.JoinedValuesRecoverable | pkg/middleware/logging.go:136 | Splitting a logged form value at "," gives back the key's values when none contains a comma. |
| Text.Join | pkg/middleware/logging.go:136 | The joined string holds every element once with one separator between neighbours: its length is the elements' total length plus one separator per gap, an empty list joins to "" and a single value to itself. |
| Text.JoinAppend | pkg/middleware/logging.go:136 | Joining a concatenation of two non-empty lists is joining each half, with one separator between them. |
| Text.SplitJoin | pkg/middleware/logging.go:136 | Join with "," and Split at ',' are inverse for comma-free elements. |
| Text.JoinAmbiguousWithComma | pkg/middleware/logging.go:136 | With a comma inside a value, two different lists log the same joined string, and so do the empty list and [""]; this is why JoinedValuesRecoverable needs comma-free values. |
| Text.ToLower | pkg/middleware/logging.go:142 | Lower-casing keeps the length, gives a lower-case string, and leaves a string that is already lower case unchanged. |
| Text.ToLowerIdempotent | pkg/middleware/logging.go:142 | Lower-casing twice is lower-casing once. |
| Text.Contains | pkg/middleware/logging.go:143-146 | A string contains only needles no longer than itself. |
| Text.ContainsLower | pkg/middleware/logging.go:142-146 | A lower-case needle found in a string is still found after the string is lower-cased. |
| Logging.ShouldLogBody | pkg/middleware/logging.go:141-147 | A type that passes the gate is at least as long as the shortest allow-listed type, "text/xml". |
| Logging.AllowListIsLower | pkg/middleware/logging.go:143-146 | Every allow-listed type is already lower case, so matching it against the lower-cased type ignores case. |
| Logging.ShouldLogBodyIgnoresCase | pkg/middleware/logging.go:141-147 | The gate gives the same verdict for two types equal up to case, and lower-casing first changes nothing. |
| Logging.AllowListPasses | pkg/middleware/logging.go:141-147 | Each of the four allow-listed types, followed by any parameters, passes the gate. |
| Logging.RequestBranch | pkg/middleware/logging.go:181-208 | The switch picks JSON exactly when the type contains "application/json"; form exactly when it contains the form media type but not JSON; XML exactly when it contains "application/xml" or "text/xml" but neither of those; raw exactly when it contains none of the four. |
| Logging.ResponseBranch | pkg/middleware/logging.go:280-298 | The response switch never picks a form parse. It picks JSON exactly when the type contains "application/json"; XML exactly when it contains "application/xml" or "text/xml" but not JSON; raw exactly when it contains none of the three. |
| Logging.MediaTypesSelectTheirBranch | pkg/middleware/logging.go:181-208 | In both switches "application/json" selects JSON, "application/xml" and "text/xml" select XML, and "text/plain" is logged raw (response switch at lines 280-298). |
| Logging.ParseBranchPassesGate | pkg/middleware/logging.go:181-208 | A content type that selects a JSON, form or XML parse (request or response switch) always passes the gate, so no parse branch is unreachable because of the gate. |
| Logging.FormResponseIsRaw | pkg/middleware/logging.go:280-298 | A form-urlencoded type passes the gate, but its response body takes the raw branch, because the response switch has no form case. |
| Logging.LowerOfMixedCaseJson | pkg/middleware/logging.go:142 | "Application/JSON" lower-cases to "application/json". |
| Logging.MixedCaseJsonIsLoggedRaw | pkg/middleware/logging.go:141-147 | "Application/JSON" passes the case-insensitive gate but takes the raw branch of both case-sensitive switches (request lines 181-208, response lines 280-298). |
| Logging.CheckRequestBody | pkg/middleware/logging.go:171-209 | The body is read exactly when logging is on, the type passes the gate and the body is not nil. A read error is reported exactly when the read fails. A body that was read is accepted exactly when the parser of the switch's branch accepts it, and rejected otherwise, with the branch's format. A raw body is logged as its bytes, a form body as its values joined with ",". |
| Logging.ParsableBodyProceeds | pkg/middleware/logging.go:181-208 | A body the branch's parser accepts is never answered by the middleware, whether body logging is on or off. |
| Logging.UnparsableBodyAnswered400 | pkg/middleware/logging.go:181-203 | Under a JSON, form or XML type, with body logging on, a body the parser refuses is answered 400 with that format's "failed to parse … request-body" message. |
| Logging.ReadErrorAnswered500 | pkg/middleware/logging.go:173-178 | With body logging on and a type that passes the gate, a failed read is answered 500 with "failed to read request-body". |
| Logging.FormTypeSelectsForm | pkg/middleware/logging.go:190 | The plain form-urlencoded type passes the gate and selects the form branch. |
| Logging.BadJsonIsRejected | pkg/middleware/logging.go:182-188 | Unparsable JSON under a JSON type, with body logging on, is answered 400 "failed to parse JSON request-body". |
| Logging.BadFormIsRejected | pkg/middleware/logging.go:190-195 | A body the form parser refuses, under the form-urlencoded type with body logging on, is answered 400 "failed to parse form-urlencoded request-body". |
| Logging.BadXmlIsRejected | pkg/middleware/logging.go:197-203 | A body the XML parser refuses, under a type that selects the XML branch with body logging on, is answered 400 "failed to parse XML request-body". |
| Logging.RawBranchNeverRejects | pkg/middleware/logging.go:205-207 | A body on the raw branch is never refused, whatever its bytes. |
| Logging.LoggingOffNeverBlocks | pkg/middleware/logging.go:172-173 | With request-body logging off the body is never read and the middleware never answers itself. |
| Logging.DownstreamBody | pkg/middleware/logging.go:180-191 | The body the next handler sees differs from the body received only on the form branch of a POST, PUT or PATCH, where it is the drained body. Nothing changes when the body is not read. |
| Logging.DownstreamBodyKept | pkg/middleware/logging.go:180 | Off the form branch, or for a method whose form parse does not read the body, the next handler gets the received body. |
| Logging.FormPostReachesNextDrained | pkg/middleware/logging.go:180-191 | A well-formed, non-empty form POST with body logging on reaches the next handler with an empty body instead of the bytes it was sent. |
| Logging.LogRequestBody | pkg/middleware/logging.go:171-209 | Proceeds exactly when there is no error answer; otherwise the sink holds exactly http.Error's answer. It writes nothing when it proceeds. The body left on the request is DownstreamBody: the bytes received, drained for a POST, PUT or PATCH form. |
| Logging.LogRequestBodyRestored | pkg/middleware/logging.go:171-209 | The same verdict, answer and body log as LogRequestBody, with the received body handed on unchanged. |
| Logging.ResponseSink.WriteHeader | pkg/middleware/logging.go:54 | The underlying writer records the code and nothing else changes. |
| Logging.ResponseSink.Flush | pkg/middleware/logging.go:67 | A flush is counted and nothing else changes. |
| Logging.ResponseSink.Hijack | pkg/middleware/logging.go:73 | Returns the connection outcome and counts the hijack. |
| Logging.StatusResponseWriter.Wrap | pkg/middleware/logging.go:78-80 | A new wrapper has recorded no code. |
| Logging.StatusResponseWriter.WriteHeader | pkg/middleware/logging.go:52-55 | Records the code and forwards it unchanged. |
| Logging.StatusResponseWriter.Status | pkg/middleware/logging.go:57-63 | Status is the last code passed to WriteHeader, or 200 when there was none or it was 0. |
| Logging.StatusResponseWriter.Flush | pkg/middleware/logging.go:65-69 | Delegates when the sink can flush, and otherwise changes nothing. |
| Logging.StatusResponseWriter.Hijack | pkg/middleware/logging.go:71-76 | Delegates when the sink can hijack, otherwise fails with the descriptive error. |
| Logging.StatusAfterWriteHeaders | pkg/middleware/logging.go:47-63 | Wrapping a writer and calling WriteHeader with any list of codes forwards every code to the underlying writer in order. Status() then reports the last code, or 200. |
| Logging.CapabilitiesAfterWrap | pkg/middleware/logging.go:65-80 | Flush reaches the underlying writer exactly when it can flush. Hijack returns its result when it can hijack, else the "does not implement http.Hijacker" error. |
| Logging.StatusOf | pkg/middleware/logging.go:57-63 | The status logged is never 0, and it is the last code written when that code is not 0. |
| Logging.HttpError | pkg/middleware/logging.go:177 | http.Error sets the plain-text Content-Type and nosniff headers, writes the code, then the message and a newline. |
| Logging.ErrorAnswerHasNoRequestID | pkg/middleware/logging.go:173-203 | A 500 or 400 answer is written before X-Request-Id is set (line 247), so a response that had no X-Request-Id has none after the answer. |
| Logging.ErrorWrittenWithID | pkg/middleware/logging.go:173-203 | An error answer written after setting X-Request-Id carries exactly the request id, with http.Error's headers, code and message. |
| Logging.CorrelationHeaders | pkg/middleware/logging.go:234-247 | X-Request-Id holds exactly the request id. X-Trace-Id and X-Span-Id hold the span's ids when it has a trace id. Without one only X-Request-Id is set. Every other response header is unchanged. |
| Logging.BeforeNext | pkg/middleware/logging.go:153-247 | Resolves the request id and logs it with the real IP and the first header values. It then stops with the error answer, or sets exactly the correlation headers and proceeds. The body left on the request is DownstreamBody. |
| Logging.CodesOfAppend | pkg/middleware/logging.go:249-250 | The codes written by two runs of calls in a row are the first run's followed by the second's. |
| Logging.AfterSteps | pkg/middleware/logging.go:249-250 | After the handler's calls, the sink holds its earlier codes followed by the calls' codes. No hijack is added and the body only grows. At most one flush is added per call. |
| Logging.AfterStepsAppend | pkg/middleware/logging.go:249-250 | Running two lists of calls one after the other leaves the sink as running their concatenation. |
| Logging.RunHandler | pkg/middleware/logging.go:249-250 | Running the next handler through the wrapper leaves the sink exactly in the state AfterSteps gives for its calls, and the wrapper records their codes in order. |
| Logging.StatusClass | pkg/middleware/logging.go:259 | For a status in 100..599 the class is its hundreds digit 1..5. Go's truncating division gives 0 for every code in -99..99. |
| Logging.CheckResponseBody | pkg/middleware/logging.go:268-302 | The response body is considered exactly when response logging is on and the type passes the gate. A writer that cannot be read back gives "not readable", and a failed read gives a read failure. Bytes read back are logged exactly when the response switch's parser accepts them, and otherwise fail with that branch's format, never form. |
| Logging.LogResponse | pkg/middleware/logging.go:268-302 | The response log is CheckResponseBody of the response's Content-Type. The only effect on the response is one flush, when the gate passes and the sink can flush. |
| Logging.HandleWithLogger | pkg/middleware/logging.go:149-306 | The next handler runs exactly when the request-body step gives no error answer; otherwise the response is exactly that answer and nothing is logged after it. When it runs, the response starts from the correlation headers. It ends in the state the handler's calls give, plus one flush when the response body is considered and the sink can flush. The completion record has StatusOf the codes, its class and the final headers. The request body left is DownstreamBody. |
| Fp.FoldLeftIsFoldFromFirst | pkg/fp/reduce.go:7-9 | The loop's fold, which applies the last element last, equals the textbook first-element-first left fold. |
| Fp.FoldLeftAppend | pkg/fp/reduce.go:4-12 | Folding xs then ys equals folding xs + ys from the same start. |
| Fp.IndexIgnoredIsFoldLeft | pkg/fp/reduce.go:16-24 | ReduceWithIndex with a callback that ignores the index folds exactly like Reduce. |
| Fp.SliceIgnoredIsFoldIndexed | pkg/fp/reduce.go:28-36 | ReduceWithSlice with a callback that ignores the slice folds exactly like ReduceWithIndex. |
| Fp.ReusedIndexedClosureRestartsIndices | pkg/fp/reduce.go:16-24 | A reused ReduceWithIndex closure restarts indices at 0, so two calls differ from one call on the concatenation. |
| Fp.ReduceClosure.Reduce | pkg/fp/reduce.go:4-5 | A Reduce closure starts from the given accumulator and has made no calls. |
| Fp.ReduceClosure.Apply | pkg/fp/reduce.go:5-11 | One call folds xs into the captured accumulator and leaves it there. The callback sees the elements in order. |
| Fp.ReduceWithIndexClosure.ReduceWithIndex | pkg/fp/reduce.go:16-17 | A ReduceWithIndex closure starts from the given accumulator and has made no calls. |
| Fp.ReduceWithIndexClosure.Apply | pkg/fp/reduce.go:17-23 | One call folds with indices 0..len-1, in increasing order, onto the captured accumulator. |
| Fp.ReduceWithSliceClosure.ReduceWithSlice | pkg/fp/reduce.go:28-29 | A ReduceWithSlice closure starts from the given accumulator and has made no calls. |
| Fp.ReduceWithSliceClosure.Apply | pkg/fp/reduce.go:29-35 | Every callback call gets the element, its index and the whole unchanged slice. |
| Fp.ReduceTwice | pkg/fp/reduce.go:4-12 | A Reduce closure called on xs then ys returns from the second call the fold of xs + ys, because the accumulator carries over. |
| Fp.ReduceThenEmpty | pkg/fp/reduce.go:4-12 | Calling a closure on the empty slice returns its current accumulator. |
| UserValueObjects.IsValid | internal/domain/aggregates/user/value_objects.go:15-21 | No valid language is the empty string, so the value NewUILanguage returns with its error is never valid. |
| UserValueObjects.NewUILanguage | internal/domain/aggregates/user/value_objects.go:7-13 | There is no error exactly when the language is valid, and then the value is the input. Otherwise the value is "" with the "invalid language" error. |
| UserValueObjects.ValidLanguagesAreTheThreeConstants | internal/domain/aggregates/user/value_objects.go:15-21 | A language is valid exactly when it is one of the three distinct constants. |
| UserValueObjects.NewUILanguageIdempotent | internal/domain/aggregates/user/value_objects.go:7-21 | An accepted language is valid and is accepted again unchanged. |
| UserValueObjects.FailureValueIsInvalid | internal/domain/aggregates/user/value_objects.go:9-11 | The value returned with the error is not a valid language. |
| Itf.UserAttachedIffPresent | pkg/itf/suite.go:143-167 | The user is attached, and Params.Authenticated is true, exactly when there is an effective user. |
| Itf.StandardLayersArePlain | pkg/itf/suite.go:143-176 | None of the standard attachments is a hook or a custom middleware. |
| Itf.BlocksInOrder | pkg/itf/suite.go:129-183 | Hooks, then layers that are neither hooks nor middlewares, then middlewares: each block keeps its position and its registration order. |
| Itf.LayeringOrder | pkg/itf/suite.go:129-183 | Hooks come right after the incoming context, in order; custom middlewares come last, just before next, in order. Past the incoming context a layer is a hook exactly in the hooks' block and a middleware exactly in the last block. |
| Itf.Suite.RequestContext | pkg/itf/suite.go:129-183 | The context built for a request is exactly: incoming context, hooks, standard attachments (user if any, pool, session, tenant, app, head, logo, logger, params, page context), and custom middlewares. |
| Itf.Suite.NewSuite | pkg/itf/suite.go:49-64 | A new suite has no override, no hooks and no middlewares. |
| Itf.Suite.AsUser | pkg/itf/suite.go:66-72 | Sets the override and the environment's user, and layers the user on the environment's context. Nothing else changes. |
| Itf.Suite.WithMiddleware | pkg/itf/suite.go:80-83 | Appends to the middlewares, keeping the earlier ones in order. |
| Itf.Suite.BeforeEach | pkg/itf/suite.go:86-89 | Appends to the hooks, keeping the earlier ones in order. |
| Itf.Suite.NewRequest | pkg/itf/suite.go:116-123 | A new request has the given method and path, no headers and no body. |
| Itf.Suite.GET | pkg/itf/suite.go:100-102 | A GET request with no headers and no body. |
| Itf.Suite.POST | pkg/itf/suite.go:104-106 | A POST request with no headers and no body. |
| Itf.Suite.PUT | pkg/itf/suite.go:108-110 | A PUT request with no headers and no body. |
| Itf.Suite.DELETE | pkg/itf/suite.go:112-114 | A DELETE request with no headers and no body. |
| Itf.Request.JSON | pkg/itf/suite.go:195-203 | A marshalling error ends the test with the request unchanged. Otherwise the body is the marshalled bytes and Content-Type is exactly application/json. |
| Itf.Request.Form | pkg/itf/suite.go:205-209 | The body is the encoded form and Content-Type is exactly application/x-www-form-urlencoded. |
| Itf.Request.MultipartData | pkg/itf/suite.go:260-294 | The body is the multipart bytes and Content-Type is exactly multipart/form-data with the writer's boundary. |
| Itf.Request.File | pkg/itf/suite.go:256-258 | Builds a multipart form holding exactly the one file, then behaves as MultipartData. |
| Itf.Request.Header | pkg/itf/suite.go:296-299 | Replaces every value of the key and leaves the body alone. |
| Itf.Request.Cookie | pkg/itf/suite.go:301-304 | Appends name=value to the Cookie values, keeping the earlier cookies. |
| Itf.Request.HTMX | pkg/itf/suite.go:306-308 | Sets Hx-Request to exactly "true". |
| Itf.Request.Expect | pkg/itf/suite.go:310-321 | The router gets the method, the path and every header as built. It gets a body exactly when one was set. |
| Itf.LastBodyBuilderWins | pkg/itf/suite.go:195-209 | After JSON then Form on one request, the router gets the form body and the single form Content-Type. |
| Itf.HeaderBuilders | pkg/itf/suite.go:296-321 | Cookies accumulate in order, Hx-Request holds one "true" however often it is set, and no body is sent without a body builder. |
| Itf.MultipartData.NewMultipart | pkg/itf/suite.go:222-224 | A new builder has no files and no form-values map. |
| Itf.MultipartData.AddFile | pkg/itf/suite.go:226-233 | Appends one file record and leaves the form values alone. |
| Itf.MultipartData.AddField | pkg/itf/suite.go:235-241 | Creates the map on first use, then appends the value to the key. |
| Itf.MultipartData.AddForm | pkg/itf/suite.go:243-253 | Appends, for every key, all the given values after the existing ones, in order, whatever order the keys are visited in. A key is present afterwards exactly when it was before or was given values. |
| Itf.AddAll | pkg/itf/suite.go:248-250 | Appending each value to one key, in order, changes only that key. |
| Itf.FieldsAccumulate | pkg/itf/suite.go:226-253 | AddField, AddFile, AddForm and AddField again on one key keep every value in call order and the one file. |
| Http.Set | pkg/itf/suite.go:296-299 | After Set the key holds only the new value, and Get returns it. |
| Http.SetKeepsOthers | pkg/middleware/logging.go:238-247 | Set adds only its key and leaves every other key's values unchanged. |
| Http.Add | pkg/itf/suite.go:301-304 | After Add the new value follows the existing ones, and Get still returns the first value, or the new one when there was none. |
| Http.AddKeepsOthers | pkg/itf/suite.go:301-304 | Add adds only its key and leaves every other key's values unchanged. |

## Findings

| source | as written | input that shows it | evidently intended | confidence | as-written member | corrected member |
|---|---|---|---|---|---|---|
| pkg/middleware/logging.go:180-191 | The request body is restored from the buffer at line 180. The form branch then calls r.ParseForm at line 191, which for POST, PUT and PATCH reads that restored body to its end. | A POST with Content-Type application/x-www-form-urlencoded, a non-empty well-formed body and request-body logging on. | The next handler reads the same bytes the client sent, as on every other branch. | not executed (medium: r.Form still holds the parsed values, so handlers that use r.Form are unaffected) | Logging.FormPostReachesNextDrained | Logging.LogRequestBodyRestored |
| pkg/middleware/logging.go:173-247 | The 500 and 400 answers return at lines 178, 187, 194 and 202, before X-Request-Id is set at line 247. | A request whose JSON body does not parse, with request-body logging on, answered on a response that has no X-Request-Id yet. | Every response, the error answers included, carries the request id in X-Request-Id. | not executed (high: the returns come before line 247 on every error path) | Logging.ErrorAnswerHasNoRequestID | Logging.ErrorWrittenWithID |

BeforeNext and HandleWithLogger follow the code as written. LogRequestBodyRestored shows the step with the received body handed on, and ErrorWrittenWithID shows the error answer with the request id set first.

## Left out

- Tracing (OpenTelemetry): span start and end, traceparent extraction and injection, span attributes. The trace ids of the span are given as an optional value.
- TracedMiddleware: it only starts a span and passes the request on, so it has nothing to model beyond tracing.
- Logging output: logrus records are modelled as the values the handler would log (`StartedLog`, `CompletedLog`, the logged body, `ResponseLog`), not as emitted text. Timestamps, duration, host and user agent are not modelled.
- What WithLogger puts on the request context (the fields logger, the start time) is not modelled.
- uuid.New is modelled as a supplied string.
- JSON, XML and form parsing are given as functions in `Parsers`. The form parser's verdict stands for r.ParseForm as a whole, including its reading of the URL query and its 10 MB limit. Whether r.ParseForm reads the body for a given Content-Type is the supplied `formMediaType` test; that it reads only for POST, PUT and PATCH is modelled, and so is the drained body it leaves.
- Logging.CheckRequestBody: a parsed JSON or XML body is logged as its raw bytes, not as the decoded value.
- On a request-body read error the code returns the 500 answer without restoring r.Body. The model follows the code: it neither drains nor restores the body on that path.
- LoggerOptions.MaxBodyLength is carried but never consulted by the handler. No truncation is modelled, because the code does none.
- Header keys are compared as given. textproto key canonicalisation is not modelled.
- Text.ToLower: covers the ASCII letters and the two non-ASCII runes whose Go lower case is ASCII (U+0130, U+212A). Other non-ASCII runes are left unchanged, which cannot change whether an ASCII allow-list entry is found.
- Logging.HttpError: http.Error's deletion of Content-Length is not modelled.
- Logging.HandleWithLogger: the downstream handler is modelled as a list of writer calls. A handler that panics, hijacks or reads the request is not modelled.
- Itf: mux routing, Register, Environment/Env, the httptest recorder, setupMiddleware's localizer provider, and the Response/HTML/Element assertions are not part of this model.
- Itf: the multipart writer's byte layout and boundary quoting, json.Marshal and url.Values.Encode are supplied as values. Write errors inside MultipartData (its Fatalf calls) are not modelled.
- Itf.Suite.RequestContext: the values of the attachments (pool, session, app, logger, localizer) are modelled as tokens. Hooks and middlewares are tokens whose application is recorded, not functions that may inspect or replace the context.
- Fp: callbacks are pure functions. A callback with side effects, or one that mutates the slice it is handed, is not modelled.
- UserValueObjects: the three language constants' real values are not part of this model. Placeholders are used, and only their being three distinct non-empty strings is relied on.
