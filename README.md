# highlight-go error client, modelled in Dafny

This project models the core of the Highlight Go backend client. That core has two parts.

The first part is the error-buffering client in `highlight.go`:
- a lifecycle that moves from idle to started to stopped;
- `ConsumeError`, which checks its guards in a fixed order, builds a `BackendErrorObjectInput` record, classifies the error value and pushes the record onto a bounded FIFO queue of capacity 128;
- `flush`, which drains a snapshot of that queue;
- the `X-Highlight-Request` header split of `InterceptRequestWithContext`;
- the empty-batch guard of the GraphQL sink (`graphqlRequester.trigger`).

The second part is the source-context windowing in `errorcontext.go`:
- `calculateContextLines`, which cuts a window of up to `context` lines either side of a 1-indexed line out of a file;
- `addContextLinesToFrame`, which distributes that window over a frame's before, content and after texts;
- the per-file cache of `readContextLines`.

Files:
- `wrappers.dfy` holds `Option` and `Result`.
- `split.dfy` (module `Splitting`) holds the semantics of Go's `strings.Split` and `bytes.Split` for a one-element separator. Both core files rely on it.
- `highlight.dfy` (module `Highlight`) holds the records, the lifecycle transition function, record construction and classification, draining, interception, the sink guard, and the `Client` class.
  - The class's fields `state`, `queue` and `closed` replace the package globals.
  - `Client.Valid()` is the client's invariant: the queue fits its capacity, holds no zero-valued sentinel record, and is closed exactly when the worker has stopped.
- `errorcontext.dfy` (module `ErrorContext`) holds the window arithmetic, the frame filling loop and the `SourceReader` class with its cache map.

Library and environment calls become parameters:
- `json.Marshal` of a `[]string` and `Frame.MarshalText` are the two function fields of a `Codec` value. Their failure is `None`.
- The `%v` rendering of a non-error value is carried by the `Other` variant of `ErrorValue`. The identifiers are strings, and `%v` of a string is the string itself.
- `time.Now()` is the `now` argument.
- `client.Mutate` is the `mutate` argument of `Trigger` and `FlushAndSend`.
- `ioutil.ReadFile` reads a `FileSystem` map; a name missing from the map is unreadable.

Where the code and the intended design differ, the model follows the code, with one exception: the start transition is corrected; see "## Findings".

Identifiers are checked for presence only, never for emptiness. A header of just `/` stores two empty identifiers, and `ConsumeError` accepts them. The model does the same.

## Model

| member | source | states |
|---|---|---|
| `Splitting.Split` | highlight.go:220 | Go's `strings.Split`/`bytes.Split` around one separator: exactly one more part than separators, no part holds the separator, and joining the parts with it gives the input back |
| `Splitting.SplitFirstTwo` | highlight.go:220-226 | when the header holds a `/`, parts 0 and 1 are the `/`-free runs before the first and second `/`; they and one `/` form a prefix of the header that ends the header or is followed by `/` |
| `Highlight.Step` | highlight.go:158-163 | the lifecycle transition, corrected: it keeps "queue closed exactly when stopped"; a stopped client never changes; start leaves the queue's closed flag alone and ends in `Started` exactly when not stopped; stop ends in `Stopped` unless idle |
| `Highlight.StepAsWritten` | highlight.go:158-163 | the start transition as written: from any state, including `Stopped`, it ends in `Started` and leaves the closed flag as it was; stop is unchanged |
| `Highlight.RestartAfterStopAsWritten` | highlight.go:158-163 | start, stop, start from the initial state ends started with a closed queue as written, so the client accepts errors into a closed queue; the corrected run stays stopped |
| `Highlight.RunKeepsConsistent` | highlight.go:310-319 | every sequence of start and stop events keeps the queue closed exactly when the worker is stopped |
| `Highlight.StoppedIsTerminal` | highlight.go:187-192 | once stopped, no sequence of start and stop events changes the lifecycle |
| `Highlight.StartIdempotent` | highlight.go:159-161 | a second start is a no-op: starting twice equals starting once |
| `Highlight.FrameTexts` | highlight.go:266-273 | the marshalled frames succeed exactly when every frame marshals; on success there is one text per frame, in frame order |
| `Highlight.MarshalFrames` | highlight.go:266-273 | the frame loop returns the texts of all frames in order, or failure as soon as one frame fails |
| `Highlight.Message` | highlight.go:64-66 | the client's own errors (worker stopped, session ID missing, request ID missing, no stack frames) have a non-empty text, and only the library's marshalling errors have none |
| `Highlight.MessagesDistinct` | highlight.go:64-66 | two of the client's own errors with the same text are the same error, so the text the unit test compares identifies the error |
| `Highlight.Classify` | highlight.go:260-286 | a plain error or any other value gives its text as both event and stack trace; a stack tracer with no frames is refused with the no-frames error, one with a frame that fails to marshal with the frame-marshalling error; a recorded stack tracer's event is its message |
| `Highlight.ClassifyStackTracer` | highlight.go:261-279 | a stack tracer whose frames marshal one by one to a list of texts is recorded with its message as event and that list's serialisation as stack trace, or refused with the stack-marshalling error when the list cannot be serialised |
| `Highlight.Convert` | highlight.go:238-258 | a missing session ID gives the session-missing error whatever else holds; otherwise a missing request ID gives the request-missing error; then a tags failure, then the classification's error; a record is built exactly when both IDs are present, the tags serialise and the value classifies, and it carries the context's IDs, type `BACKEND`, the serialised tags as payload, the capture time, empty URL and source, the classified event and trace, and is never the zero-valued sentinel |
| `Highlight.DropSentinels` | highlight.go:297-308 | the drained batch is no longer than the snapshot, holds no sentinel, holds only records that were queued, and is the whole snapshot when it held no sentinel |
| `Highlight.DropSentinelsAppend` | highlight.go:300-306 | dropping sentinels distributes over concatenation, so the batch keeps FIFO order |
| `Highlight.DropSentinelsExactlyOnce` | highlight.go:300-306 | every real record appears in the batch exactly as many times as it was queued: none lost, none duplicated |
| `Highlight.InterceptRequestWithContext` | highlight.go:218-227 | a header without `/` (including an empty one) leaves the context unchanged; otherwise both IDs are set to `/`-free runs: the first two fields of the header, with anything after them ignored |
| `Highlight.InterceptReadsIdentifiers` | highlight.go:219-226 | the header `sid/rid` followed by nothing or by `/...` yields exactly session ID `sid` and request ID `rid` |
| `Highlight.Trigger` | highlight.go:98-114 | the sink reaches the network exactly when the batch is non-empty; an empty batch succeeds without a call; otherwise the network's error is returned |
| `Highlight.Client.constructor` | highlight.go:137-148 | a new client is idle, with an empty open queue, and valid |
| `Highlight.Client.StartWithContext` | highlight.go:158-163 | the corrected start transition: an idle client becomes started, and any other state is left alone; the queue is untouched and the invariant is kept |
| `Highlight.Client.Shutdown` | highlight.go:310-319 | a started client becomes stopped and its queue closed; idle or stopped clients are left alone; queued records stay |
| `Highlight.Client.Stop` | highlight.go:187-192 | Stop followed by the worker's shutdown: no effect when idle or stopped, otherwise the stop transition |
| `Highlight.Client.ConsumeError` | highlight.go:231-289 | a stopped client returns the worker-stopped error and leaves the queue alone; otherwise either the guard or classification error is returned with the queue unchanged, or the built record is appended at the tail and nil is returned; the invariant is kept |
| `Highlight.Client.Flush` | highlight.go:297-308 | removes exactly the records counted at the start, leaving the queue empty, and returns them in FIFO order with sentinels skipped; under the invariant this is the whole queue |
| `Highlight.Client.FlushAndSend` | highlight.go:167-171 | the worker's timer branch empties the queue and hands the batch to the sink, which reaches the network exactly when records were queued |
| `Highlight.ConsumeErrorThenFlush` | highlight_test.go:26-52 | one case of the unit test on a fresh started client: an error is refused exactly when `Convert` refuses it, with that error and nothing flushed, and a missing session ID gives the session-missing text; otherwise the flush returns exactly the one record built, and for a plain error with both IDs its event and stack trace are the error's text |
| `ErrorContext.CalculateContextLines` | errorcontext.go:49-79 | nil and 0 exactly when the lines are nil or the 1-indexed line is outside them; otherwise a contiguous slice holding the target line at index `contextLine`, with min(context, line-1) lines before and min(context, len-line) after, a negative context counting as 0, and at most 2*context+1 lines |
| `ErrorContext.AddContextLinesToFrame` | errorcontext.go:81-93 | appends the lines before `contextLine` to `LinesBefore`, sets `LineContent` to the line at `contextLine` when it exists, appends the lines after to `LinesAfter`, and keeps the frame |
| `ErrorContext.WindowPartition` | errorcontext.go:81-93 | the before text, the line and the after text together give back the whole window |
| `ErrorContext.Load` | errorcontext.go:37-43 | an unreadable (absent) file gives nil; a readable one gives at least one line (an empty file gives one empty line), the lines hold no `\n`, and joined with `\n` they give the file's bytes back |
| `ErrorContext.SourceReader.constructor` | errorcontext.go:23-27 | a new reader has an empty cache |
| `ErrorContext.SourceReader.ReadContextLines` | errorcontext.go:29-47 | a cached file is never read again, and its window comes from the cached lines; an uncached file is cached as its lines split on `\n`, or as nil when unreadable; a nil entry gives `(nil, 0)` on this and every later call |

## Left out

- The worker goroutine's `select` over the timer, the interrupt channel, OS signals and `ctx.Done()` is concurrency and timing. Its branches are modelled as the sequential steps `FlushAndSend` and `Shutdown`.
- `signal.Notify` is left out for the same reason.
- The `sync.WaitGroup` (`wg.Add`, `wg.Done`, `wg.Wait`) guards against concurrent producers, so it is left out. Closing `errorChan` is the `closed` flag. Closing `interruptChan` and `signalChan` is not modelled.
- The mutex of `sourceReader` is left out: each call is modelled as one atomic step.
- `graphql.NewClient` and `client.Mutate` are network calls. The mutation is the `mutate` parameter.
- `json.Marshal`, `Frame.MarshalText`, `fmt.Sprintf("%v", ...)`, `time.Now()` and `ioutil.ReadFile` are library calls. They become parameters or fields, as described above.
- The text of the marshalling libraries' errors is not modelled. Those errors become `TagsMarshalFailed`, `FrameMarshalFailed` and `StackMarshalFailed`.
- `Start`, `InterceptRequest`, `SetFlushInterval`, `SetGraphqlClientAddress`, `SetDebugMode`, the `Logger`/`deadLog` types and `mockRequester` are one-line wrappers, configuration setters or test doubles.
- `tracer.go` is left out: it records floating-point metrics through a foreign framework.
- `internal/errors/errors.go` is left out: it is an older copy of the drain loop plus a network call.
- The gin and go-chi middleware are framework adapters and are left out.
- Highlight.Client.ConsumeError: a push onto a full queue blocks in the source. The model makes room a precondition, required only when the push would actually happen.
- Highlight.Client.Flush: the model is sequential, so no record can arrive while a flush runs. The snapshot count still bounds the loop, but "records queued during the drain stay for the next flush" is not stated.
- Highlight.Client.StartWithContext: follows the corrected transition `Step`, not the code as written; see "## Findings".
- ErrorContext.CalculateContextLines: integers are unbounded. Go's 64-bit overflow of `line + context + 1` for a `context` near the maximum `int` is not modelled.

## Findings

| source | as written | input that shows it | evidently intended | confidence | as-written member | corrected member |
|---|---|---|---|---|---|---|
| highlight.go:158-163 | `StartWithContext` returns early only when the state is `started`. From `stopped` it sets the state back to `started`, while `shutdown` has already closed `errorChan` | `Start()`, `Stop()` (the worker runs `shutdown`), `Start()`, then `ConsumeError` with both IDs: the state check passes and the send on the closed channel panics | a stopped client stays stopped; start is a no-op unless the client is idle | medium; not executed | `Highlight.StepAsWritten` | `Highlight.Step` |

`Highlight.RestartAfterStopAsWritten` exhibits the as-written run. `Highlight.RunKeepsConsistent` and `Highlight.StoppedIsTerminal` prove the corrected transition's properties, and `Highlight.Client.StartWithContext` uses that transition.
