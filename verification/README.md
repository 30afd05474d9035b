# Touchline worker communication, modelled in Dafny

Touchline is an Electron desktop application. It runs its detection, training
and database work in a separate worker executable (`touchline_cli`). The two
sides talk over the worker's stdin and stdout, one JSON document per line.
This project models that communication layer and proves properties of the model:

- **Line framing** (`Framing`, `Protocol`): `ProtocolHandler` buffers incoming
  text, cuts it at line feeds, skips blank lines, drops lines that do not
  parse and serializes outgoing messages as JSON plus `\n`.
- **Request correlation** (`Correlation`): both worker clients keep a map of
  pending callbacks keyed by `request_id`, with one timeout timer per request.
  The two clients carry the same code, so it is defined once here.
- **Main-process client** (`MainProcess`, `TouchlineMainProcess`): it spawns
  the worker, waits for the `{"request_id":"system","data":{"status":"ready"}}`
  readiness message under a 30 s start-up timer, gates commands on readiness
  and handles process error, process exit and `cleanup()`.
- **Renderer client** (`RendererClient`, `TouchlineClient`): the same
  correlation plus event subscriptions (`on`, and the unsubscribe function it
  returns). It routes on `type === "event"`, has a configurable request
  timeout and has no readiness handshake.
- **Process manager** (`CliManager`, `CLIManager`): it guards against starting
  twice, hands decoded stdout messages to `onMessage`, gates `sendMessage`, and
  shuts down with SIGTERM, then SIGKILL after 5 s.
- **Task stores** (`TaskStore`, `DetectionStore`, `TrainingStore`): maps of
  active tasks keyed by task id, each action producing a new map. The two
  stores run the same code over different task records, so the actions and
  their laws are stated once in `TaskStore`, generic in the task type and in
  the function that reads a task's own id.

Each client is a state record plus one pure function per callback the source
registers: stdout data, process error, process exit, a timer firing, a call
of a public method. Each such function returns the new state together with
its observable effects as data (`Effects.Out`):

- a write to stdin;
- a timer armed, with its delay;
- a promise settled, with its outcome;
- a signal sent;
- a subscriber called.

Error messages are kept as the text the source builds, except two:

- the main-process client's "Python CLI not found at: …" error is the
  structured reason `MissingCli(path)`, and `MainProcess.NotFoundText` spells
  out its message;
- a response whose `error` is truthy but not a string (a number, `true`, an
  object or an array) rejects with `Converted(value)`, which keeps the JSON
  value; the source's `new Error(response.error || …)` uses its JavaScript
  string conversion, which is not modelled (see "## Left out").

`Step` dispatches one event and `Run` folds a sequence of events. Properties
about one callback are `ensures` clauses. Properties about event sequences
are lemmas.

The inputs the program gets from its environment are parameters:

- `JSON.parse` and `JSON.stringify` are a `JsonCodec` of two functions.
  - `parse` is partial: `None` stands for the `SyntaxError` the code catches.
  - `Json.Lawful` is the assumed contract of the pair: stringify never emits a
    line feed or a blank text, and parsing stringify's output returns the
    value for every value that can travel, `Json.OnWire`: one whose numbers
    are all finite IEEE 754 doubles. Round-trip lemmas take `Lawful` and
    `OnWire` of the message as hypotheses; the envelopes the clients build
    are `OnWire` whenever their payload is (`MainProcess.EnvelopeOnWire`,
    `MainProcess.AnswerOnWire`, `MainProcess.AnnouncementOnWire`).
  - Stdout chunks arrive as text: each `Buffer` is decoded on its own by
    `data.toString()`. The chunking lemmas therefore speak of cuts between
    characters (see "## Left out").
- `uuidv4()` is the `id` carried by the send event. `Admissible` and `Fresh`
  require that it collide with no id in use.
- `fs.existsSync` is a boolean. The spawned process is a number standing for
  its identity.
- Whether a subscriber throws is a `raises` predicate.

Behaviours of the code worth noting:

- **No bulk cancellation.** Neither client settles pending requests when the
  worker exits or on `cleanup()`. Cleanup empties the pending map, but the
  timers stay armed and later reject each request with "Command timeout".
  This is `MainProcess.ExitLeavesRequestsToTimers` and
  `MainProcess.CleanupThenTimeout`.
- **Subscriber exceptions are not isolated.** `handlers.forEach` stops at the
  first subscriber that throws. The remaining subscribers miss that event,
  and the line loop goes on with the next line. This is
  `RendererClient.ThrowingHandlerStopsDelivery`.
- **No renderer handshake.** The renderer client is ready, and its start
  resolved, right after the spawn. This is `RendererClient.NoHandshake`.
- **Defaults and the spread.** In `CLIManager`'s constructor the spread
  `...options` comes after the defaults. An explicitly passed empty string or
  `undefined` therefore overrides the default, whereas the renderer client
  applies `||` to every field. This is `CliManager.SpreadOverridesDefaults`
  and `RendererClient.Configure`.

## Model

| member | source | states |
|---|---|---|
| `Framing.Cut` | electron/cli/protocol.ts:19-22 | the complete lines and the kept tail are free of line feeds, and the lines, each followed by a line feed, then the tail, give back the input |
| `Framing.CutIsTheDecomposition` | electron/cli/protocol.ts:19-22 | any split of a text into newline-free lines and a newline-free tail that reassembles it is exactly the split the reader makes (both directions) |
| `Framing.CutChunks` | electron/cli/protocol.ts:17-22 | cutting `buffer + a`, then the tail plus `b`, gives the same lines in order and the same tail as cutting `buffer + a + b` at once |
| `Protocol.DecodeLine` | electron/cli/protocol.ts:25-31 | a line yields one message exactly when it is not whitespace-only and parses, and that message is the parse result; otherwise it yields none |
| `Protocol.ProcessData` | electron/cli/protocol.ts:16-36 | the retained buffer has no line feed; old buffer plus data equals the consumed lines with their line feeds plus the new buffer; the messages are those lines' decodings |
| `Protocol.ClearBufferForgets` | electron/cli/protocol.ts:48-50 | after `clearBuffer` the handler is a new handler: nothing received earlier affects later messages |
| `Protocol.ChunkingInvariance` | electron/cli/protocol.ts:16-36 | feeding `a` then `b` returns the same messages in the same order and leaves the same buffer as feeding `a + b` |
| `Protocol.BlankLineIgnored` | electron/cli/protocol.ts:25 | a whitespace-only line among other lines contributes no message |
| `Protocol.MalformedLineSkipped` | electron/cli/protocol.ts:26-31 | a line that fails to parse contributes nothing, and the lines after it are still decoded |
| `Protocol.MessagesInLineOrder` | electron/cli/protocol.ts:24-33 | when every line parses, the messages are exactly the parsed lines, one per line, in line order |
| `Protocol.SerializedIsOneLine` | electron/cli/protocol.ts:41-43 | a serialized message contains exactly one line feed, as its last character |
| `Protocol.StreamRoundTrip` | electron/cli/protocol.ts:16-43 | feeding the serializations of any sequence of messages whose numbers are finite doubles to a new handler returns that sequence and leaves the buffer empty |
| `Protocol.RoundTrip` | electron/cli/protocol.ts:41-43 | for a message whose numbers are finite doubles, feeding `serializeMessage(m)` to an empty buffer returns `[m]` and leaves the buffer empty |
| `Protocol.SplitDelivery` | electron/cli/protocol.ts:16-36 | a serialized message (numbers finite doubles) cut at any offset and fed in two chunks yields exactly that message and an empty buffer |
| `Protocol.MalformedThenValid` | electron/cli/protocol.ts:24-33 | an unparseable line followed by a valid message (numbers finite doubles) yields exactly that message |
| `Correlation.RequestData` | src/main/touchline.ts:220-223 | an omitted `data` argument is sent as `{}`; a given one is sent unchanged |
| `Correlation.ErrorReason` | src/main/touchline.ts:247 | a falsy `error` gives "Unknown error", a non-empty string is the message, any other truthy value is converted |
| `Correlation.ResponseOutcome` | src/main/touchline.ts:242-249 | a response resolves exactly when `success` is truthy, with its `data`; otherwise it rejects with the `error` reason |
| `Correlation.ResponseKey` | src/main/touchline.ts:213 | a response can match a pending request only through a string `request_id`, and then through exactly that string |
| `Correlation.Register` | src/main/touchline.ts:229-249 | a fresh id gains a callback and a timer reporting its command; every other timer and callback is unchanged; every pending callback keeps its timer |
| `Correlation.Respond` | src/main/touchline.ts:213-217 | a response whose id is pending settles that request once with its outcome and removes its entry and timer; any other response changes nothing |
| `Correlation.Expire` | src/main/touchline.ts:230-233 | a firing timeout rejects only its own request with "Command timeout: <command>" and removes only its entry; a cleared timer does nothing |
| `Correlation.ClearPending` | src/main/touchline.ts:261 | clearing empties the pending map and leaves every armed timer in place |
| `Correlation.RespondOnce` | src/main/touchline.ts:213-217 | a response delivered a second time settles nothing and changes nothing |
| `Correlation.OutOfOrder` | src/main/touchline.ts:213-217 | two responses for different pending requests settle each request with its own outcome, and the final state does not depend on arrival order |
| `Correlation.TimeoutIsolation` | src/main/touchline.ts:230-233 | one request timing out leaves every other request's callback and timer, and a later response settles that request as before |
| `CliPaths.WorkerCliPathShape` | src/main/touchline.ts:53-91 | the executable lies under `python/touchline_cli`; its name is `touchline_cli.exe` exactly in production on win32; development uses the working directory; production uses `resourcesPath` when defined |
| `CliPaths.ManagerCliPathShape` | electron/cli/cliManager.ts:35-47 | the name is `touchline_cli.exe` exactly when packaged on win32; a packaged app looks under `resourcesPath`, an unpackaged one under the app path |
| `CliPaths.ResolversAgree` | electron/cli/cliManager.ts:35-47 | the manager looks where the main-process client looks (src/main/touchline.ts:53-91) when it is packaged exactly in production, its app path is the working directory in development, its resources path is the host's in production, and the platform is the same |
| `CliPaths.RenderEndsWithFileName` | electron/cli/cliManager.ts:51-56 | a path's text starts with its root and ends with the separator and the executable's name |
| `CliPaths.ResolveManagerCli` | electron/cli/cliManager.ts:51-56 | the path is returned exactly when the file exists; otherwise the error is "CLI executable not found at: " followed by the path's text, which starts at the root and ends with the executable's name |
| `MainProcess.InitializeStep` | src/main/touchline.ts:93-182 | a missing executable rejects the start with the not-found error for the resolved path and changes nothing; otherwise the worker is spawned at the resolved path, the start waits and a 30000 ms start-up timer is armed, with readiness, buffer and requests untouched |
| `MainProcess.HandleResponse` | src/main/touchline.ts:200-218 | a `null` message is dropped; the readiness message sets ready and resolves a waiting start without touching requests; any other message goes to the correlation router |
| `MainProcess.OnStdout` | src/main/touchline.ts:184-198 | after a chunk, the buffer holds no line feed and reassembles, with the consumed lines, the old buffer plus the chunk; the decoded lines are handled in order |
| `MainProcess.OnError` | src/main/touchline.ts:136-146 | a process error clears readiness and rejects a waiting start with the error; a settled start is not settled again |
| `MainProcess.OnExit` | src/main/touchline.ts:148-161 | an exit clears readiness and keeps the process, buffer and every pending request; only a non-null non-zero code rejects a waiting start, with the code in the message |
| `MainProcess.OnReadyTimer` | src/main/touchline.ts:170-176 | the start-up timer rejects exactly when the worker is not ready and a start is still waiting, and leaves readiness, process and requests alone |
| `MainProcess.SendCommandStep` | src/main/touchline.ts:220-254 | without readiness or a process the command is refused and nothing is written; otherwise one entry and one 30000 ms timer are added under the fresh id and one request line is written |
| `MainProcess.CleanupStep` | src/main/touchline.ts:256-263 | with a process: SIGTERM to it, no process, not ready, no pending callbacks; without one: nothing |
| `MainProcess.HandleMessagesSettles` | src/main/touchline.ts:188-197 | the requests settled while handling a batch of lines are distinct, were armed before and are not armed after, and no timer appears |
| `MainProcess.ExpireSettlesWell` | src/main/touchline.ts:230-233 | a request timer firing settles at most its own request, which was armed and is disarmed, and keeps every pending callback's timer armed |
| `MainProcess.SendSettlesWell` | src/main/touchline.ts:228-253 | sending a command settles nothing, keeps the invariant and arms only the new request's timer |
| `MainProcess.StepSettles` | src/main/touchline.ts:126-263 | any one event keeps every pending callback's timer armed and settles distinct, previously armed requests, disarming them |
| `MainProcess.EachRequestSettlesOnce` | src/main/touchline.ts:228-249 | over any run with fresh distinct ids, no request is settled twice, and every settled request was sent in the run or already pending |
| `MainProcess.StartSettlesOnce` | src/main/touchline.ts:136-211 | the start promise settles at most once per initialize: readiness, error, exit and the start-up timer settle it only while it waits, and settling ends the wait |
| `MainProcess.StdoutChunking` | src/main/touchline.ts:126-130 | two stdout chunks have the same effects in the same order and leave the same state as their concatenation |
| `MainProcess.SentRequestDecodes` | src/main/touchline.ts:235-252 | for data whose numbers are finite doubles, the written request is one line that decodes to an envelope with `type: "request"`, the fresh id, the command and the data |
| `MainProcess.EnvelopeOnWire` | src/main/touchline.ts:235-240 | the request envelope travels intact whenever its data does |
| `MainProcess.ResponseSettlesOnce` | src/main/touchline.ts:213-217 | a response line for a pending request settles it once with the response's outcome and disarms it; the same line again changes nothing |
| `MainProcess.ReadinessHandshake` | src/main/touchline.ts:202-211 | the readiness message sets ready, resolves the start exactly when one waits, leaves the requests alone, and a second one does nothing |
| `MainProcess.NotReadyRefused` | src/main/touchline.ts:224-226 | after the worker exits, a command is refused with "CLI client not initialized" and nothing is written |
| `MainProcess.ExitLeavesRequestsToTimers` | src/main/touchline.ts:148-161 | an exit settles no request and keeps every entry; each request is later rejected by its own timer |
| `MainProcess.CleanupThenTimeout` | src/main/touchline.ts:256-263 | cleanup empties the pending map, yet a dropped request's timer still rejects it with the timeout message |
| `MainProcess.CleanExitLeavesStartToTimer` | src/main/touchline.ts:148-176 | an exit with code 0 or null before readiness does not reject the start; the start-up timer later does |
| `MainProcess.AnswerResolves` | src/main/touchline.ts:242-249 | a successful answer line for a pending request resolves it with the answer's data |
| `MainProcess.EndToEnd` | src/main/touchline.ts:93-254 | spawn, readiness announcement, command, answer: the start resolves, the request is written under its id and the answer resolves it with its data |
| `RendererClient.Configure` | src/renderer/src/lib/touchline/client.ts:14-20 | a missing, empty or zero option takes its default (`python3`, `touchline_cli.main`, 30000), any other value is kept, so no setting is falsy |
| `RendererClient.New` | src/renderer/src/lib/touchline/client.ts:6-20 | a new client has no process, no pending request, no subscriber, an empty buffer, is not ready and holds the configured options |
| `RendererClient.IndexOf` | src/renderer/src/lib/touchline/client.ts:207 | the result is -1 exactly when the handler is absent, else the position of its first occurrence |
| `RendererClient.RemoveFirst` | src/renderer/src/lib/touchline/client.ts:207-210 | an absent handler leaves the list unchanged; a present one loses exactly its first occurrence, and the rest keep their order |
| `RendererClient.On` | src/renderer/src/lib/touchline/client.ts:197-202 | the handler is appended to its event's list, created when absent; every other list and every other field is unchanged |
| `RendererClient.Unsubscribed` | src/renderer/src/lib/touchline/client.ts:204-212 | unsubscribing removes the first occurrence of the handler from its own event's list only, and does nothing when that list is gone |
| `RendererClient.Dispatch` | src/renderer/src/lib/touchline/client.ts:150 | subscribers are called in list order; all but the last called did not throw; delivery stops early only after a subscriber throws |
| `RendererClient.HandleMessage` | src/renderer/src/lib/touchline/client.ts:113-123 | a `null` line is dropped; an event changes no state and settles no request; anything else goes to the correlation router |
| `RendererClient.OnStdout` | src/renderer/src/lib/touchline/client.ts:109-129 | after a chunk, the buffer holds no line feed and reassembles, with the consumed lines, the old buffer plus the chunk; the decoded lines are handled in order |
| `RendererClient.InitializeStep` | src/renderer/src/lib/touchline/client.ts:56-104 | the worker is spawned at the resolved path, the client is ready and the start resolves at once |
| `RendererClient.OnExit` | src/renderer/src/lib/touchline/client.ts:88-94 | an exit clears readiness only: no promise settles and requests stay pending |
| `RendererClient.SendCommandStep` | src/renderer/src/lib/touchline/client.ts:157-192 | without readiness or a process the command is refused; otherwise one entry and one timer with the configured delay are added and one request line is written |
| `RendererClient.CleanupStep` | src/renderer/src/lib/touchline/client.ts:218-226 | with a process: SIGTERM to it, no process, not ready, no pending callbacks, no subscriptions; without one: nothing |
| `RendererClient.NoHandshake` | src/renderer/src/lib/touchline/client.ts:82-98 | right after initialize, before any output, a command is accepted; a later error or failing exit cannot reject the start |
| `RendererClient.EventsNeverSettle` | src/renderer/src/lib/touchline/client.ts:119-120 | an event message settles no request, even one carrying a pending id, and changes no state |
| `RendererClient.EventReachesSubscribers` | src/renderer/src/lib/touchline/client.ts:147-152 | when no subscriber throws, an event reaches every subscriber of its name once per subscription, in subscription order |
| `RendererClient.ThrowingHandlerStopsDelivery` | src/renderer/src/lib/touchline/client.ts:150 | after the first subscriber that throws, no later subscriber receives that event |
| `RendererClient.SubscribeThenUnsubscribe` | src/renderer/src/lib/touchline/client.ts:197-212 | subscribing a new handler and calling the returned unsubscriber restores every subscriber list |
| `RendererClient.UnsubscribeRemovesOne` | src/renderer/src/lib/touchline/client.ts:204-212 | one unsubscribe call removes exactly one registration of its handler |
| `RendererClient.SecondUnsubscribeIsNoOp` | src/renderer/src/lib/touchline/client.ts:204-212 | for a handler registered once, the first call removes it and a second call changes nothing |
| `RendererClient.CleanupDropsSubscriptions` | src/renderer/src/lib/touchline/client.ts:224 | in the state cleanup leaves, before any new subscription, no event reaches a former subscriber and an old unsubscriber does nothing |
| `RendererClient.StaleUnsubscriberRemovesResubscription` | src/renderer/src/lib/touchline/client.ts:204-212 | an unsubscriber holds only the event and the callback: after cleanup and a new subscription of the same callback to the same event, the old unsubscriber removes the new registration |
| `RendererClient.StdoutChunking` | src/renderer/src/lib/touchline/client.ts:71-74 | two stdout chunks have the same effects in the same order and leave the same state as their concatenation |
| `RendererClient.SentRequestDecodes` | src/renderer/src/lib/touchline/client.ts:172-190 | for data whose numbers are finite doubles, the written request is one line that decodes to an envelope with the fresh id, the command and the data, and no `type` |
| `RendererClient.EnvelopeOnWire` | src/renderer/src/lib/touchline/client.ts:172-176 | the request envelope travels intact whenever its data does |
| `RendererClient.HandleMessagesSettles` | src/renderer/src/lib/touchline/client.ts:113-127 | the requests settled while handling a batch of lines are distinct, were armed before and are not armed after |
| `RendererClient.StepSettles` | src/renderer/src/lib/touchline/client.ts:134-142 | any one event keeps every pending callback's timer armed and settles distinct, previously armed requests, disarming them; the only timer that can appear is the sent request's |
| `RendererClient.EachRequestSettlesOnce` | src/renderer/src/lib/touchline/client.ts:165-190 | over any run with fresh distinct ids, no request is settled twice, and every settled request was sent in the run or already pending |
| `CliManager.StoredField` | electron/cli/cliManager.ts:23-28 | an option keeps its default exactly when it is left out or given as the default; `undefined` is kept as undefined; any given value overrides |
| `CliManager.New` | electron/cli/cliManager.ts:23-30 | a new manager has no process, is not running, has an empty protocol buffer and nothing pending |
| `CliManager.InitializeStep` | electron/cli/cliManager.ts:62-118 | while running the start is rejected with "CLI process already running"; a missing executable rejects with the not-found error; otherwise the process is spawned, running, and the start resolves |
| `CliManager.DeliverAll` | electron/cli/cliManager.ts:83-87 | every decoded message is handed to `onMessage`, once each, in order |
| `CliManager.OnStdout` | electron/cli/cliManager.ts:81-88 | a chunk goes through the protocol handler; its messages reach `onMessage` in order when one was given, and nothing else changes |
| `CliManager.OnError` | electron/cli/cliManager.ts:96-102 | a process error is reported to `onError` when given and changes no state |
| `CliManager.OnExit` | electron/cli/cliManager.ts:104-109 | an exit leaves no process and not running, resolves every waiting cleanup, and clears the buffer only when a cleanup waited |
| `CliManager.SendMessageStep` | electron/cli/cliManager.ts:123-130 | without a running process the call is refused with "CLI process not running"; otherwise exactly `serializeMessage(message)` is written |
| `CliManager.CleanupStep` | electron/cli/cliManager.ts:142-163 | without a process cleanup resolves at once; with one it sends SIGTERM, waits for the exit and arms a 5000 ms force-kill timer |
| `CliManager.FireKillTimer` | electron/cli/cliManager.ts:156-160 | as written, the force-kill timer sends SIGKILL to whatever process is current when it fires |
| `CliManager.FireKillTimerFixed` | electron/cli/cliManager.ts:156-160 | corrected: the force-kill timer signals the process it was armed for, and only while it is still current |
| `CliManager.OnExitFixed` | electron/cli/cliManager.ts:145-149 | corrected: every exit leaves the protocol buffer empty, otherwise acting as the exit as written |
| `CliManager.StepKeepsInv` | electron/cli/cliManager.ts:105-111 | every event keeps "running exactly when there is a process" and registers exit waiters only on a current process |
| `CliManager.ActiveIffProcess` | electron/cli/cliManager.ts:135-137 | over any run, `isActive()` is true exactly when there is a current process |
| `CliManager.InitializeOnlyOnce` | electron/cli/cliManager.ts:63-65 | after a successful start, a second `initialize()` is rejected and spawns nothing |
| `CliManager.SendMessageGate` | electron/cli/cliManager.ts:123-130 | a message is written exactly when the manager is active, and what is written decodes back to that message when its numbers are finite doubles |
| `CliManager.DeliveryChunking` | electron/cli/cliManager.ts:81-88 | two chunks deliver to `onMessage` what their concatenation delivers, in the same order |
| `CliManager.CleanupIdle` | electron/cli/cliManager.ts:143 | cleanup without a process resolves at once and changes nothing |
| `CliManager.CleanupEscalates` | electron/cli/cliManager.ts:142-163 | SIGTERM at once; SIGKILL to the same process if it has not exited when the timer fires; an exit first resolves the cleanup, clears the buffer and leaves the timer nothing to kill |
| `CliManager.StaleKillTimerHitsReplacement` | electron/cli/cliManager.ts:156-160 | as written: cleanup, exit, restart within 5 s, and the old timer sends SIGKILL to the new process |
| `CliManager.FixedKillTargetsOwnProcess` | electron/cli/cliManager.ts:153-160 | corrected: over any run, every SIGKILL targets a process that was current when some cleanup armed its timer |
| `CliManager.FixedKillTimerSparesReplacement` | electron/cli/cliManager.ts:156-160 | corrected: in the same scenario the new process is not killed |
| `CliManager.StaleFragmentCorruptsRestart` | electron/cli/cliManager.ts:104-109 | as written: a partial line left by a process that exits on its own is glued to the first line of the next process |
| `CliManager.FixedRestartDeliversFirstMessage` | electron/cli/cliManager.ts:145-149 | corrected: after any exit, a restarted process's first message is delivered on its own |
| `CliManager.SpreadOverridesDefaults` | electron/cli/cliManager.ts:23-28 | an explicit empty string or `undefined` option overrides the default; only a left-out option gets it |
| `TaskStore.Empty` | src/stores/detectionStore.ts:16-17 | the initial store holds no task |
| `TaskStore.GetTask` | src/stores/detectionStore.ts:42 | a lookup finds a task exactly when its id is a key, and then the task stored there; an absent id gives undefined |
| `TaskStore.UpdateTask` | src/stores/detectionStore.ts:26-31 | the task is found under the given id, added if absent; every other id finds what it found before |
| `TaskStore.AddTask` | src/stores/detectionStore.ts:19-24 | the task is found under its own id; every other id finds what it found before |
| `TaskStore.RemoveTask` | src/stores/detectionStore.ts:33-38 | the id finds nothing afterwards; every other id finds what it found before |
| `TaskStore.ClearTasks` | src/stores/detectionStore.ts:40 | no id finds a task afterwards |
| `TaskStore.Extensionality` | src/stores/detectionStore.ts:5-13 | two stores that answer every `getTask` alike are the same store |
| `TaskStore.UpdateTwice` | src/stores/detectionStore.ts:26-31 | the last update under an id wins |
| `TaskStore.UpdatesCommute` | src/stores/detectionStore.ts:26-31 | updates under different ids commute |
| `TaskStore.RemoveUndoesAdd` | src/stores/detectionStore.ts:19-38 | removing a task just added under a free id restores the store; removing twice is removing once |
| `TaskStore.AddIsUpdateUnderOwnId` | src/stores/detectionStore.ts:19-31 | adding a task is updating it under its own id |
| `TaskStore.UpdateUnderOtherId` | src/stores/detectionStore.ts:26-31 | updating under an id other than the task's own id files it under the given id only; its own id finds what it found before |
| `TaskStore.Lifecycle` | src/stores/detectionStore.ts:19-38 | add, update under the task's id, and removal leave every other task as it was, and the task is gone at the end |
| `DetectionStore.ProgressLifecycle` | src/stores/detectionStore.ts:19-38 | a detection task's progress report replaces it under its `task_id` only, and its removal forgets it |
| `TrainingStore.ProgressLifecycle` | src/renderer/src/stores/trainingStore.ts:19-38 | a training task's progress report replaces it under its `task_id` only, and its removal forgets it |

## Left out

- Process I/O is effects, not actions. Spawning, stdin writes, signals, timers and console logging appear only as `Effect` values. The working directory and environment given to `spawn`, and `getDatabasePath` with its directory creation, are not modelled.
- Stderr output is left out: it is only logged.
- The IPC handlers of the main process (src/main/touchline.ts:269-338) are left out. They forward to `sendCommand`.
- `CLIManager.checkPython` and `checkTouchlineInstalled` (electron/cli/cliManager.ts:168-198) are left out. Both spawn separate probe processes.
- The `pythonPath` and `cliModule` options are not used for spawning. They are kept as configuration only, since the executable path replaces them.
- `path.join` normalisation is not modelled. Paths are a root plus segments, rendered with the platform separator.
- JavaScript numbers are Dafny `real`s and `int`s. NaN and floating-point rounding are not modelled.
- Subscribers that subscribe or unsubscribe while an event is being delivered are not modelled.
- A second `initialize()` on a client while a start is still pending is not modelled. The model keeps one start promise.
- `onMessage` and `onError` are assumed not to throw.
- Exit and error events come from the current process only. A late event from a replaced process is not modelled.
- Stdin writes are taken to succeed, and a destroyed stdin stream is not modelled.
- `MainProcess.OnError`: the "error" event after the start has settled calls the original `reject`, which does nothing. The model shows no effect for it.
- `Correlation.ErrorReason`: a truthy non-string `error` gives `Converted(value)` rather than a message text. The source's `Error` constructor converts the value to a string ("42", "true", "[object Object]", comma-joined array items); JavaScript's string conversion of values is not modelled.
- `MainProcess.StdoutChunking`: holds for chunks cut between characters only. The source decodes each stdout `Buffer` separately with `data.toString()`, so a multi-byte UTF-8 character split across two chunks becomes two U+FFFD characters; bytes and UTF-8 decoding are not modelled.
- `RendererClient.StdoutChunking`: holds for chunks cut between characters only, for the same reason: each `Buffer` is decoded on its own, and a split multi-byte character is replaced.
- `CliManager.DeliveryChunking`: holds for chunks cut between characters only, for the same reason: each `Buffer` is decoded on its own, and a split multi-byte character is replaced.
- `RendererClient.Step`: the process "error" event (src/renderer/src/lib/touchline/client.ts:81-84) logs and rejects the start promise, which has already resolved right after the spawn, so the rejection has no effect. The model gives the event no effect and does not model the log line.
- `RendererClient.OnExit`: the rejection a failing exit attempts targets the start promise, which has already resolved, so it has no effect. The model shows none.

## Findings

| source | as written | input that shows it | evidently intended | confidence | as-written member | corrected member |
|---|---|---|---|---|---|---|
| electron/cli/cliManager.ts:156-160 | the force-kill timer reads `this.process` when it fires | `cleanup()`, then the process exits within 5 s, then `initialize()` starts a new process, then the timer fires | SIGKILL only the process the cleanup was called for | not executed | `CliManager.StaleKillTimerHitsReplacement` | `CliManager.FixedKillTimerSparesReplacement` |
| electron/cli/cliManager.ts:104-109 | only an exit during `cleanup()` clears the protocol buffer | the worker prints a partial line, exits on its own, `initialize()` restarts it, and it prints a message | each process's output is framed from an empty buffer | not executed | `CliManager.StaleFragmentCorruptsRestart` | `CliManager.FixedRestartDeliversFirstMessage` |

In both rows the as-written lemma uses the step functions that
`CliManager.Step` dispatches to, unchanged. The corrected lemma uses
`CliManager.StepFixed`, which replaces two of them with
`CliManager.FireKillTimerFixed` and `CliManager.OnExitFixed`.
