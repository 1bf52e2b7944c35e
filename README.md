# EmailServerAPI core in Dafny

This project models the two sequential pieces of the EmailServerAPI gateway,
a Swift server that exposes SMTP sending over a streaming HTTP endpoint:

- **The `SMTPConnection` actor** (`connection.dfy`, `connection_properties.dfy`).
  The actor keeps three flags: `isRunningCommand`, `isConnected` and `isLoggedIn`.
  It also records the outcome of the last command and three timestamps.
  `connect`, `login`, `send` and `disconnect` first check an exact combination of
  the flags (the `hasState` guards) and throw an `SMTPConnectionError` on the
  first mismatch, in the order running, connected, logged-in. They then run the
  transport call inside `whileRunningCommand`, which raises the busy flag,
  records success or failure and lowers the flag on both paths. Only after a
  successful call do they set the connected and logged-in flags.
  The class `Connection.SMTPConnection` has the actor's fields. Each method is
  proved to produce exactly the state and result given by the value-level
  function `Connection.Perform`. The lemmas about `Perform` state the per-operation
  contracts and the run-level invariants: logged-in implies connected, no
  overlapping commands (`ConnectionProperties.InFlightCommandRefusesOthers`),
  and no `sendEmail` without a `login`.
- **`StreamStorage` and its per-stream task** (`stream_server.dfy`,
  `stream_properties.dfy`). The registry maps a fresh stream id to the task
  serving the stream. `finishedStream` and `cancelStream` remove an entry only
  when it is present, and `cancelStream` then cancels the entry's task. The
  outbound stream's termination handler maps `.cancelled` to `cancelStream` and
  every other kind to `finishedStream`. The task reads the decoded inbound
  messages. Before each message it checks for cancellation. It echoes each
  `StreamKeepAlive(true)` and finishes the outbound stream on
  `StreamKeepAlive(false)`. Its `break` leaves only the `switch`, so the loop
  keeps reading. When the input ends it finishes the stream again.
  `Sources/EmailServerAPI/EmailServerAPI.swift:66-129` holds a second, identical
  copy of `StreamStorage`. This model covers both copies and cites
  `Stream+Server.swift`.

External effects become inputs. Each transport call (`SMTPServer.connect`,
`login`, `sendEmail`, `disconnect`) is a boolean saying whether it succeeded.
Each `Date()` is a moment of an abstract clock (`Time`) supplied by the caller:
the start and the end of the command. A task's cancellation is an
`Option<nat>`: `Some(k)` means the task is cancelled once `k` messages have been
dispatched, and it stays cancelled. The outbound `AsyncStream` is a record of
the items yielded plus a `finished` flag. The model ASSUMES, as AsyncStream
documents, that a yield after `finish()` is ignored and a second `finish()`
does nothing. `Task.cancel()` calls are recorded in a ghost history
(`cancelled`). The calls made to the SMTP server are recorded in another
(`transportCalls`), with the busy flag as it stood at each call.

Points of the code that the model keeps as written:

- `disconnect` does not reconnect, and a stream id is assigned once in
  `makeStream` and never changed.
- An undecodable JSON line makes `for try await` throw, so the task ends with
  an error and without the final `finish()`
  (`StreamProperties.UndecodableLineEndsTask`).
- Guard violations are the three `SMTPConnectionError` cases.
  `badIsConnected` fills its `state` field from `isRunningCommand`, as
  `SMTPConnection.swift:164` does
  (`ConnectionProperties.ConnectedMismatchReportsBusyFlag`).
- Stream messages produce no SMTP activity in the task. Login, logout and
  e-mail messages are only printed.

## Model

| member | source | states |
|---|---|---|
| Connection.CheckState | Sources/EmailServerAPI/SMTPConnection.swift:143-173 | The guard passes exactly when every demanded flag matches (the logged-in flag is unchecked for the two-flag overload). Otherwise it reports the first mismatch in the order running, connected, logged-in. The reported `expected` is the demanded value. `state` is the offending flag, except that a connected mismatch reports the busy flag. |
| Connection.Perform | Sources/EmailServerAPI/SMTPConnection.swift:63-100 | An operation reaches the transport exactly when its guard passes. A failed guard throws that guard's error and changes nothing. After a transport call the busy flag is down, the outcome and start time are recorded, and the operation succeeds exactly when the transport did. A failed call keeps both session flags. Id, host and port never change. |
| Connection.SMTPConnection.constructor | Sources/EmailServerAPI/SMTPConnection.swift:30-47 | The new actor has the given id, endpoint and flags (each flag false unless given), no recorded outcome or dates, and has made no transport call. |
| Connection.SMTPConnection.State | Sources/EmailServerAPI/SMTPConnection.swift:49-61 | `state()` returns a snapshot whose every field equals the actor's field, and it modifies nothing. |
| Connection.SMTPConnection.HasState | Sources/EmailServerAPI/SMTPConnection.swift:143-173 | The sequential checks of the actor's flags throw exactly the error `CheckState` gives for the current state, and return normally when it gives none. |
| Connection.SMTPConnection.WhileRunningCommand | Sources/EmailServerAPI/SMTPConnection.swift:123-141 | Makes exactly one transport call, with the busy flag raised. It leaves the busy flag down on both paths, records the outcome and the matching date, and returns whether the call succeeded. |
| Connection.SMTPConnection.Send | Sources/EmailServerAPI/SMTPConnection.swift:63-68 | The new state, the result and the transport calls are those of `Perform` for a send. The transport is called at most once, and only when the guard passes. |
| Connection.SMTPConnection.Connect | Sources/EmailServerAPI/SMTPConnection.swift:71-78 | The new state, the result and the transport calls are those of `Perform` for a connect. |
| Connection.SMTPConnection.Login | Sources/EmailServerAPI/SMTPConnection.swift:81-88 | The new state, the result and the transport calls are those of `Perform` for a login. |
| Connection.SMTPConnection.Disconnect | Sources/EmailServerAPI/SMTPConnection.swift:91-100 | The new state, the result and the transport calls are those of `Perform` for a disconnect. |
| ConnectionProperties.AfterCommandRecordsOutcome | Sources/EmailServerAPI/SMTPConnection.swift:123-141 | After the command, the busy flag is down and `lastCommandSucceeded` equals the outcome. Exactly the matching date (succeeded or failed) is set to the end time, and the other date is kept. The session flags are untouched. |
| ConnectionProperties.ConnectOutcome | Sources/EmailServerAPI/SMTPConnection.swift:71-78 | `connect` reaches the transport exactly from the idle state. Success leaves the connection connected and logged out. Failure leaves it disconnected. From any other state it throws a guard error and changes nothing. |
| ConnectionProperties.LoginOutcome | Sources/EmailServerAPI/SMTPConnection.swift:81-88 | `login` reaches the transport exactly when the connection is idle, connected and logged out. Afterwards it is still connected, and it is logged in exactly when the transport succeeded. |
| ConnectionProperties.SecondLogin | Sources/EmailServerAPI/SMTPConnection.swift:81-88 | A second `login` after a successful one throws `badIsLoggedIn(state: true, expected: false)`, changes nothing and makes no transport call. After a failed login, the retry reaches the transport. |
| ConnectionProperties.SendKeepsSession | Sources/EmailServerAPI/SMTPConnection.swift:63-68 | `send` never changes `isConnected` or `isLoggedIn`, and it reaches the transport exactly on an idle, connected, logged-in connection. |
| ConnectionProperties.SendBeforeLogin | Sources/EmailServerAPI/SMTPConnection.swift:63-68 | `send` on an idle, connected, logged-out connection throws `badIsLoggedIn(state: false, expected: true)`, changes nothing and never calls `sendEmail`. |
| ConnectionProperties.DisconnectOutcome | Sources/EmailServerAPI/SMTPConnection.swift:91-100 | `disconnect` ignores the logged-in flag. Success clears both session flags. Failure keeps both. |
| ConnectionProperties.ConnectedMismatchReportsBusyFlag | Sources/EmailServerAPI/SMTPConnection.swift:161-166 | `connect` on an idle connection that is already connected throws `badIsConnected(state: false, expected: false)`: the `state` field carries the busy flag. |
| ConnectionProperties.PerformKeepsLoggedInConnected | Sources/EmailServerAPI/SMTPConnection.swift:71-100 | Every operation, on every guard and transport outcome, keeps "logged in implies connected". |
| ConnectionProperties.ReplayKeepsLoggedInConnected | Sources/EmailServerAPI/SMTPConnection.swift:71-100 | Any sequence of operations keeps "logged in implies connected". |
| ConnectionProperties.ReplayEndsIdle | Sources/EmailServerAPI/SMTPConnection.swift:123-141 | A run that starts with no command in flight ends with none: every operation lowers the busy flag it raised. |
| ConnectionProperties.InFlightCommandRefusesOthers | Sources/EmailServerAPI/SMTPConnection.swift:123-159 | While `whileRunningCommand` has the busy flag raised, every operation throws `badIsRunningCommand(state: true, expected: false)`, changes nothing and makes no transport call, so no second command overlaps the one in flight. |
| ConnectionProperties.BusyConnectionIsStuck | Sources/EmailServerAPI/SMTPConnection.swift:154-159 | A connection whose busy flag is raised never changes and never calls the transport, whatever is run on it. |
| ConnectionProperties.NoSendWithoutLogin | Sources/EmailServerAPI/SMTPConnection.swift:63-68 | From a logged-out connection, a run with no `login` never hands an e-mail to the transport. |
| StreamServer.Dispatch | Sources/EmailServerAPI/Stream+Server.swift:61-76 | On an open stream, a keep-alive(true) yields exactly one keep-alive(true). No other message yields anything. Keep-alive(false) finishes the stream, and a finished stream stays finished. |
| StreamServer.StopFrom | Sources/EmailServerAPI/Stream+Server.swift:59-60 | The loop dispatches a message only if it decoded and the task was not cancelled before it. It stops at the first line that fails either test, or at the end of input. |
| StreamServer.RunStreamTask | Sources/EmailServerAPI/Stream+Server.swift:58-79 | The loop's output, how it ended and how many messages it dispatched are exactly those of `TaskSpec`. |
| StreamServer.StreamStorage.constructor | Sources/EmailServerAPI/Stream+Server.swift:19-24 | The registry starts empty, with no task cancelled. |
| StreamServer.StreamStorage.FinishedStream | Sources/EmailServerAPI/Stream+Server.swift:26-31 | The new registry is `AfterFinished` of the old one. |
| StreamServer.StreamStorage.CancelStream | Sources/EmailServerAPI/Stream+Server.swift:32-38 | The new registry is `AfterCancel` of the old one. |
| StreamServer.StreamStorage.MakeStream | Sources/EmailServerAPI/Stream+Server.swift:80 | The new registry maps the id to the new task, and everything else is as before. |
| StreamServer.StreamStorage.OnTermination | Sources/EmailServerAPI/Stream+Server.swift:45-52 | The new registry is what the termination handler gives for that kind. |
| StreamProperties.FinishedIsFinal | Sources/EmailServerAPI/Stream+Server.swift:70-78 | Once the outbound stream is finished, no further message changes it. |
| StreamProperties.DispatchAllEchoes | Sources/EmailServerAPI/Stream+Server.swift:61-76 | From an open stream, the output is one keep-alive(true) for each keep-alive(true) before the first keep-alive(false), and nothing else. The stream is finished exactly when a keep-alive(false) occurs. |
| StreamProperties.RunToEndOfInput | Sources/EmailServerAPI/Stream+Server.swift:59-79 | If input decodes and the task is not cancelled, the task dispatches every message, including those after a keep-alive(false). It ends normally with the stream finished, and its output is the echoes of `DispatchAllEchoes`. |
| StreamProperties.CancellationStopsDispatch | Sources/EmailServerAPI/Stream+Server.swift:60 | A task cancelled after `k` messages dispatches at most `k`. On decodable input longer than `k`, it dispatches exactly `k`, ends with the cancellation error, and its output is what the first `k` messages produced, with the final `finish()` skipped. |
| StreamProperties.UndecodableLineEndsTask | Sources/EmailServerAPI/Stream+Server.swift:59 | An undecodable line, reached before cancellation, ends the task with the decoding error. No later line is dispatched, and the output is only what the earlier lines produced: the final `finish()` is skipped. |
| StreamProperties.MakeAddsOneEntry | Sources/EmailServerAPI/Stream+Server.swift:80 | With a fresh id, `makeStream` adds exactly that key, mapped to the new task. The map grows by one, and all other entries and cancellations are unchanged. |
| StreamProperties.RemovalsRemoveOnlyId | Sources/EmailServerAPI/Stream+Server.swift:26-38 | Both removals take the id out and leave every other entry as it was. `finishedStream` cancels nothing. `cancelStream` cancels exactly the removed task, or nothing when the id is absent. |
| StreamProperties.RemovalsAreIdempotent | Sources/EmailServerAPI/Stream+Server.swift:26-38 | A second `finishedStream` or `cancelStream` on the same id does nothing. |
| StreamProperties.CancelAfterFinishIsNoop | Sources/EmailServerAPI/Stream+Server.swift:28-35 | `cancelStream(id)` after `finishedStream(id)` does nothing, so that stream's task is never cancelled. |
| StreamProperties.TerminationMapping | Sources/EmailServerAPI/Stream+Server.swift:45-52 | `.cancelled` maps to `cancelStream`. `.finished` and any unknown kind map to `finishedStream`. |
| StreamProperties.ApplyKeepsConsistent | Sources/EmailServerAPI/Stream+Server.swift:32-38 | Registering a new task or terminating a stream keeps the registry consistent: no task cancelled twice, no registered task cancelled, no task serving two ids. |
| StreamProperties.CancelledAtMostOnce | Sources/EmailServerAPI/Stream+Server.swift:32-38 | Over any sequence of stream creations (with new tasks) and terminations of either kind, each task is cancelled at most once. |

## Left out

- Transport errors: the SMTP transport's own error is collapsed into one `TransportFailure`; the actor rethrows it unchanged, and the SMTP library that defines it is not part of this model.
- Logger calls, `loggerMetadata` and `print` calls: no effect on state.
- Actor re-entrancy and the concurrent execution of the termination handler in a new `Task` with a weak reference to the storage: the model runs operations one at a time, and the handler always finds the storage.
- `makeStream`'s construction of the `AsyncStream`, its returned stream and the JSON-lines decoding of the request body: the task receives the already decoded lines, each either a message or an undecodable line.
- `ClientStream` (`Stream+Client.swift` and its copy in `EmailServerAPI.swift`): a task group and a timed heartbeat, whose point is concurrency and timing.
- `Handler.swift`: HTTP glue over a `SMTPStreamStorage` that is not part of this model.
- The JSON encoding and decoding of `SMTPConnectionCommand` and `WebsocketResponses`: thin wrappers over Foundation's `JSONEncoder`/`JSONDecoder`, whose synthesised behaviour is not part of this model.
- `StreamStorageV2`: an empty actor.
- Time: `Date()` values are supplied moments of an abstract clock, with no ordering between them assumed.
- `StreamKeepAlive`'s `keepAlive` field is taken to be a non-optional `Bool`: the generated schema type is not part of this model. If the field were optional, a missing value would also finish the stream, as `false` does.
- The link between the task and the registry: the task's `continuation.finish()` (`Stream+Server.swift:71`, `:78`) fires the termination handler with `.finished`, and `cancelStream`'s `task.cancel()` (`:36`) is what makes `Task.checkCancellation()` (`:60`) throw. In the model the task's cancellation point `cancelAt` and the registry's `Terminate` events are independent inputs.
