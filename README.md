# Empire event notifications, modelled in Dafny

This project models the event-notification part of Empire's control plane (`events.go`):

- **The event taxonomy.** There are seven immutable event kinds: run, restart, scale, deploy, set, rollback and create. Each has a constant kind name (`Event()`) and a description (`String()`) built from its fields.
- **The event-stream contract.** A stream takes one event and returns nil or an error. `NullEventStream` discards every event.
- **`AsyncEventStream`.** This is a channel that buffers up to 100 events in front of a downstream stream. `PublishEvent` enqueues the event and returns nil. One worker drains the buffer in order. It calls the downstream under a deferred `recover` and logs any error or panic, then moves on to the next event. Nothing is retried.

Files:

- `wrappers.dfy`: `Option`. A Go nil `error` is `None`.
- `format.dfy`: the `%d` verb applied to a Go `int` (`IntToDecimal`, with its reader `ParseDecimal`) and `strings.Join`.
- `events.dfy`: `datatype Event` with one constructor per struct, `Kind`, and `Describe`. `Describe` dispatches to one function per `String()` method.
- `streams.dfy`: `Error`, the function-typed stream `EventStreamFunc`, and `NullEventStream`. `Streams.PublishEvent` models `EventStreamFunc.PublishEvent` (events.go:146-148), which only hands the event to the function and returns its answer.
- `async_stream.dfy`: the async stream.
  - `Outcome` is what one downstream call did.
  - `Recovered` is the error that `publishEvent` turns an outcome into.
  - The worker's delivery log is specified by `Deliveries`.
  - `class AsyncEventStream` holds the buffer as `queue: seq<Event>`. Its ghost state records which events were accepted, the attempted deliveries, and the errors the worker logged. `Valid()` keeps three invariants: `|queue| <= 100`; attempted-then-queued equals accepted; and the error log is exactly the errors of the failed deliveries, in order (`errorLog == Failures(log)`).

The descriptions follow the format strings in the code. Backticks appear only around Run's command, a non-empty Restart PID and Scale's process. `Events.BackticksQuoteOnly` proves this.

The user or the command may contain the word `attached`, so `Events.RunAttachment` pins the attachment word to its position after the command, and `Events.RunFlagRecoverable` shows that the flag is recoverable from the text.

The channel is modelled sequentially:

- A send on a full channel blocks. So `PublishEvent` requires room in the buffer.
- The worker blocks on an empty channel. So `WorkerStep` requires a queued event.
- Any interleaving of producers and the worker is a sequence of these two steps, and each step keeps `Valid()`.
- `Start` runs the `for … range` loop for a given number of turns.
- The downstream stream is opaque. Each worker step receives the `Outcome` of its downstream call as a parameter.

## Model

| member | source | states |
|---|---|---|
| Format.IntToDecimal | events.go:111 | the `%d` text is non-empty and starts with '-' exactly for negative values |
| Format.NatDigitsRoundTrip | events.go:61 | the digits of a natural number read back to that number and have a leading '0' only for zero |
| Format.IntToDecimalRoundTrip | events.go:111 | `ParseDecimal(IntToDecimal(i)) == Some(i)`: `%d` loses nothing |
| Format.IntToDecimalInjective | events.go:61 | two integers have the same `%d` text exactly when they are equal |
| Format.IntToDecimalOnlySignAndDigits | events.go:61 | the `%d` text contains only the sign and digits |
| Format.JoinAppend | events.go:96 | joining `xs + [x]` gives the join of `xs`, the separator, then `x` (or just `x` when `xs` is empty) |
| Format.JoinExcludes | events.go:96 | a character found in no element and not in the separator is absent from the join |
| Events.Describe | events.go:21-126 | every description starts with the event's User field and has text after it, so it is never empty |
| Events.KindIdentifiesVariant | events.go:17-122 | two events have the same kind name exactly when they are the same variant, so the seven names are pairwise distinct |
| Events.RunAttachment | events.go:21-27 | Run's description has " (" then "attached" or "detached" (per the flag) right after the command |
| Events.RunFlagRecoverable | events.go:21-27 | with the other fields fixed, the Run descriptions for two flag values are equal exactly when the flags are |
| Events.RestartDescription | events.go:40-46 | an empty PID gives User + " restarted " + App; otherwise User + " restarted `" + PID + "` on " + App |
| Events.RestartPidRecoverable | events.go:40-46 | with User and App fixed, two Restart descriptions are equal exactly when the PIDs are (the empty PID included) |
| Events.RestartExamples | events.go:40-46 | the descriptions "bob restarted api" and "bob restarted `web.1` on api" |
| Events.ScaleQuantityRecoverable | events.go:60-62 | with the other fields fixed, two Scale descriptions are equal exactly when the quantities are |
| Events.DeployDescription | events.go:75-78 | an empty App gives exactly User + " deployed " + Image |
| Events.DeployToApp | events.go:75-81 | with a non-empty App the description is the App-less one followed by " to " + App |
| Events.SetChangedParenthesised | events.go:95-97 | Set's description ends with "(", the names joined by ", ", and ")"; with no names it ends with "()" |
| Events.SetChangedAppend | events.go:95-97 | one more changed name extends the list inside the parentheses by ", " and that name |
| Events.RollbackEndsWithVersion | events.go:110-112 | Rollback's description ends with "v" followed by the decimal Version |
| Events.RollbackVersionRecoverable | events.go:110-112 | with User and App fixed, two Rollback descriptions are equal exactly when the versions are |
| Events.CreateEndsWithName | events.go:124-126 | Create's description is User, " created ", then the Name |
| Events.BackticksQuoteOnly | events.go:26-125 | with backtick-free fields, a description has a backtick exactly for Run, Scale, and Restart with a PID |
| Streams.NullEventStreamAcceptsAll | events.go:151-153 | the null stream returns nil for every event |
| AsyncStream.Recovered | events.go:187-201 | the error is nil exactly when the downstream returned nil; a returned error or an `error` panic value passes through unchanged; any other panic value gives "panic: " followed by the value's rendering |
| AsyncStream.Attempted | events.go:179-180 | the attempted events are the log's events, position by position |
| AsyncStream.Failures | events.go:181-183 | no more errors are logged than deliveries were attempted |
| AsyncStream.FailuresAppend | events.go:181-183 | a delivery adds its error to the error log when it failed, and adds nothing when it succeeded |
| AsyncStream.Deliveries | events.go:178-185 | the worker's log has one delivery per event handled |
| AsyncStream.DeliveriesAt | events.go:178-185 | fault isolation: the k-th delivery is the k-th event with the error of its own downstream call, whatever earlier calls did |
| AsyncStream.DeliveriesAttemptEach | events.go:178-185 | every event is attempted exactly once and in order, whatever the downstream outcomes |
| AsyncStream.DeliveriesAppend | events.go:178-185 | handling one more event appends exactly its delivery to the log |
| AsyncStream.AsyncEventStream.constructor | events.go:164-171 | a new stream has an empty buffer and nothing accepted, attempted or logged, and satisfies the invariant |
| AsyncStream.AsyncEventStream.PublishEvent | events.go:173-176 | with room in the buffer: returns nil, appends the event to the buffer and to the accepted events, and leaves the logs alone |
| AsyncStream.AsyncEventStream.PublishGuarded | events.go:187-201 | the error `publishEvent` returns is `Recovered` of the downstream outcome |
| AsyncStream.AsyncEventStream.WorkerStep | events.go:179-184 | takes the oldest event, returns it with the recovered error, logs the attempt, adds the error to the error log only when there is one, and keeps the invariant |
| AsyncStream.AsyncEventStream.Start | events.go:178-185 | after n turns the first n queued events are gone and the log has grown by exactly their deliveries under the n outcomes |

## Left out

- Goroutines and channels. The model is sequential, as described above. Blocking on a full or empty channel becomes a precondition.
- Shutdown and draining. The source defines neither, so the model has neither.
- The downstream stream's own behaviour (network or webhook backends). It is an oracle: each worker step receives its `Outcome`.
- Go's `%v` rendering of a non-error panic value. It is carried as a string in `PanicOther`.
- `panic(nil)`. Before Go 1.21, `recover` returned nil for it, so `publishEvent` returned nil. This case is not modelled.
- The text of the `log.Printf` line ("event stream error: …"). The model keeps the logged `Error` values in the ghost `errorLog`.
- Go's `error` interface. Errors are values identified by their message, and error identity is not modelled.
- The `EventStream` and `Event` interfaces. Dafny has no interface dispatch here. The function-typed streams are `EventStreamFunc`. The async stream's `PublishEvent` is a method of its class. The event interface is the `Event` datatype with `Kind` and `Describe`.
- Go strings are byte strings. Here they are `seq<char>`, and no encoding is modelled.
- `empire/server/heroku/heroku.go` (routes and JSON, stream and error helpers). It is outside the event subsystem.
