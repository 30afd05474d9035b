/**
  The main-process worker client: it spawns the worker, waits for the
  worker's readiness message, correlates commands with responses and applies
  timeouts. Every decoded line goes to the response handler; this client does
  not route events.

  Each callback the source registers (stdout data, process error, process
  exit, the start-up timer, a request timer) is one event of `Event`, and
  `Step` is the state change that callback makes.
 */
module MainProcess {
  import opened Wrappers
  import opened Json
  import JsText
  import opened Framing
  import Protocol
  import opened Effects
  import opened Correlation
  import CliPaths

  /** The client's fields. `awaitingReady` is true while `readyResolver` and
      `readyRejecter` are set (they are always set and cleared together);
      `readyTimers` counts start-up timers armed and not yet fired. */
  datatype Main = Main(
    worker: Option<nat>,
    router: Router,
    buffer: string,
    ready: bool,
    awaitingReady: bool,
    readyTimers: nat)

  /** A new client: no process, nothing pending, empty buffer, not ready. */
  const Initial: Main := Main(None, Correlation.Empty, "", false, false, 0)

  /** The start-up readiness timeout, in milliseconds. */
  const ReadyTimeoutMs: int := 30000

  /** The id of the readiness message. */
  const SystemId: string := "system"

  datatype Event =
    | Initialize(env: CliPaths.HostEnv, cliFound: bool, worker: nat)  // initialize(), with the fs.existsSync answer and the spawned process
    | Stdout(chunk: string)                                           // a chunk of the worker's stdout
    | WorkerError(message: string)                                    // the process 'error' event
    | WorkerExit(code: Option<int>)                                   // the process 'exit' event (None: null code)
    | ReadyTimerFires                                                 // a start-up timer expires
    | SendCommand(command: string, data: Option<Json>, id: string)    // sendCommand(command, data?), id from uuidv4()
    | RequestTimerFires(id: string)                                   // the timeout of request `id` expires
    | Cleanup                                                         // cleanup()

  /** A UUID never collides with an id in use. */
  predicate Admissible(s: Main, e: Event) {
    e.SendCommand? ==> Fresh(s.router, e.id)
  }

  /** The state invariant: every pending callback has its timer. */
  predicate Inv(s: Main) {
    Valid(s.router)
  }

  /** The message of the error `initialize()` rejects with when the
      executable at `path` is missing. */
  function NotFoundText(path: string): string {
    "Python CLI not found at: " + path
      + "\n\nPlease ensure the Touchline CLI is installed in the resources/python/touchline_cli directory."
  }

  /** The error `initialize()` rejects with when the executable is missing. */
  function NotFoundReason(env: CliPaths.HostEnv): Reason {
    MissingCli(CliPaths.Render(CliPaths.WorkerCliPath(env), env.platform))
  }

  /** `initialize()`: a missing executable rejects the start and changes
      nothing; otherwise the worker is spawned, the start promise waits for
      the readiness message and a 30 s start-up timer is armed. Readiness,
      the buffer and the pending map are left as they were. */
  function InitializeStep(s: Main, env: CliPaths.HostEnv, found: bool, w: nat): (out: Out<Main>)
    ensures !found ==> out == Out(s, [StartSettled(Rejected(NotFoundReason(env)))])
    ensures found ==>
              && out.state == s.(worker := Some(w), awaitingReady := true, readyTimers := s.readyTimers + 1)
              && out.effects == [Spawned(w, CliPaths.Render(CliPaths.WorkerCliPath(env), env.platform)),
                                 Armed(ReadyTimeout, ReadyTimeoutMs)]
  {
    if !found then Out(s, [StartSettled(Rejected(NotFoundReason(env)))])
    else Out(s.(worker := Some(w), awaitingReady := true, readyTimers := s.readyTimers + 1),
             [Spawned(w, CliPaths.Render(CliPaths.WorkerCliPath(env), env.platform)),
              Armed(ReadyTimeout, ReadyTimeoutMs)])
  }

  /** Whether a parsed message is the readiness message: `request_id` is
      "system" and `data?.status` is "ready". */
  predicate IsReadyMessage(m: Json)
    requires !m.JNull?
  {
    IsString(Get(m, "request_id"), SystemId) && IsString(GetOpt(Get(m, "data"), "status"), "ready")
  }

  /** `handleResponse(response)`. Reading a field of `null` throws, and the
      exception is caught and logged by the line loop, so a `null` message
      changes nothing. The readiness message sets `ready`, resolves a waiting
      start once and never touches the pending requests; every other message
      goes to the correlation router. */
  function HandleResponse(s: Main, m: Json): (out: Out<Main>)
    ensures m.JNull? ==> out == Out(s, [])
    ensures !m.JNull? && IsReadyMessage(m) ==>
              && out.state == s.(ready := true, awaitingReady := false)
              && out.effects == (if s.awaitingReady then [StartSettled(Fulfilled(None))] else [])
    ensures !m.JNull? && !IsReadyMessage(m) ==>
              out == Out(s.(router := Respond(s.router, m).state), Respond(s.router, m).effects)
  {
    if m.JNull? then Out(s, [])
    else if IsReadyMessage(m) then
      Out(s.(ready := true, awaitingReady := false),
          if s.awaitingReady then [StartSettled(Fulfilled(None))] else [])
    else
      var o := Respond(s.router, m);
      Out(s.(router := o.state), o.effects)
  }

  /** The line loop of `processBuffer`, over the messages the lines decode to. */
  function HandleMessages(s: Main, ms: seq<Json>): Out<Main> {
    Fold(HandleResponse, s, ms)
  }

  /** A stdout chunk: appended to the buffer, then `processBuffer()` keeps the
      unterminated tail and handles the complete lines in order. */
  function OnStdout(c: JsonCodec, s: Main, chunk: string): (out: Out<Main>)
    ensures NoNewline(out.state.buffer)
    ensures Unlines(Cut(s.buffer + chunk).complete) + out.state.buffer == s.buffer + chunk
    ensures out.state.buffer == Cut(s.buffer + chunk).rest
    ensures out == HandleMessages(s.(buffer := Cut(s.buffer + chunk).rest),
                                  Protocol.DecodeLines(c, Cut(s.buffer + chunk).complete))
  {
    var f := Cut(s.buffer + chunk);
    HandleMessagesBufferFree(s.(buffer := f.rest), Protocol.DecodeLines(c, f.complete), f.rest);
    HandleMessages(s.(buffer := f.rest), Protocol.DecodeLines(c, f.complete))
  }

  /** The 'error' event: not ready, and a waiting start is rejected with the error. */
  function OnError(s: Main, message: string): (out: Out<Main>)
    ensures out.state == s.(ready := false, awaitingReady := false)
    ensures out.effects == (if s.awaitingReady then [StartSettled(Rejected(Message(message)))] else [])
  {
    Out(s.(ready := false, awaitingReady := false),
        if s.awaitingReady then [StartSettled(Rejected(Message(message)))] else [])
  }

  /** The message a failed exit rejects the start with. */
  function ExitReason(code: int): Reason {
    Message("Python process exited with code " + JsText.Decimal(code))
  }

  /** The 'exit' event: readiness is lost; a non-null, non-zero code rejects a
      start that is still waiting. The process reference is kept and pending
      requests are not completed: they are left to their timers. */
  function OnExit(s: Main, code: Option<int>): (out: Out<Main>)
    ensures !out.state.ready
    ensures out.state.worker == s.worker && out.state.router == s.router && out.state.buffer == s.buffer
    ensures (code == None || code == Some(0) || !s.awaitingReady) ==> out == Out(s.(ready := false), [])
    ensures code.Some? && code.value != 0 && s.awaitingReady ==>
              && out.state == s.(ready := false, awaitingReady := false)
              && out.effects == [StartSettled(Rejected(ExitReason(code.value)))]
  {
    match code
    case Some(k) =>
      if k != 0 && s.awaitingReady then
        Out(s.(ready := false, awaitingReady := false), [StartSettled(Rejected(ExitReason(k)))])
      else Out(s.(ready := false), [])
    case None => Out(s.(ready := false), [])
  }

  /** The start-up timer: it rejects the start only when the worker is not yet
      ready and the start is still waiting. */
  function OnReadyTimer(s: Main): (out: Out<Main>)
    ensures s.readyTimers == 0 ==> out == Out(s, [])
    ensures s.readyTimers > 0 ==> out.state.readyTimers == s.readyTimers - 1
    ensures out.effects != [] <==> s.readyTimers > 0 && !s.ready && s.awaitingReady
    ensures out.effects != [] ==>
              && out.effects == [StartSettled(Rejected(Message("Timeout waiting for CLI ready message")))]
              && !out.state.awaitingReady
    ensures out.state.router == s.router && out.state.ready == s.ready && out.state.worker == s.worker
  {
    if s.readyTimers == 0 then Out(s, [])
    else if !s.ready && s.awaitingReady then
      Out(s.(readyTimers := s.readyTimers - 1, awaitingReady := false),
          [StartSettled(Rejected(Message("Timeout waiting for CLI ready message")))])
    else Out(s.(readyTimers := s.readyTimers - 1), [])
  }

  /** The request the main-process client writes; it carries `type: "request"`. */
  function RequestEnvelope(id: string, command: string, data: Json): Json {
    JObj(map["type" := JStr("request"), "request_id" := JStr(id), "command" := JStr(command), "data" := data])
  }

  /** `sendCommand(command, data)`: refused, with nothing written, unless the
      client is ready and has a process; otherwise exactly one pending entry
      and one timer are added under the fresh id and exactly one
      newline-terminated request is written. */
  function SendCommandStep(c: JsonCodec, s: Main, command: string, data: Json, id: string): (out: Out<Main>)
    requires Fresh(s.router, id)
    ensures !s.ready || s.worker.None? ==> out == Out(s, [Refused(Message("CLI client not initialized"))])
    ensures s.ready && s.worker.Some? ==>
              && out.state == s.(router := Register(s.router, id, command))
              && out.effects == [Armed(RequestTimeout(id), RequestTimeoutMs),
                                 Write(Protocol.SerializeMessage(c, RequestEnvelope(id, command, data)))]
  {
    if !s.ready || s.worker.None? then Out(s, [Refused(Message("CLI client not initialized"))])
    else
      Out(s.(router := Register(s.router, id, command)),
          [Armed(RequestTimeout(id), RequestTimeoutMs),
           Write(Protocol.SerializeMessage(c, RequestEnvelope(id, command, data)))])
  }

  /** `cleanup()`: with a process, kill it, drop the reference, clear
      readiness and the pending map; without one, nothing. */
  function CleanupStep(s: Main): (out: Out<Main>)
    ensures s.worker.None? ==> out == Out(s, [])
    ensures s.worker.Some? ==>
              && out.state == s.(worker := None, ready := false, router := ClearPending(s.router))
              && out.effects == [Killed(s.worker.value, SIGTERM)]
  {
    match s.worker
    case None => Out(s, [])
    case Some(w) => Out(s.(worker := None, ready := false, router := ClearPending(s.router)), [Killed(w, SIGTERM)])
  }

  /** One event. */
  function Step(c: JsonCodec, s: Main, e: Event): Out<Main>
    requires Admissible(s, e)
  {
    match e
    case Initialize(env, found, w) => InitializeStep(s, env, found, w)
    case Stdout(chunk) => OnStdout(c, s, chunk)
    case WorkerError(message) => OnError(s, message)
    case WorkerExit(code) => OnExit(s, code)
    case ReadyTimerFires => OnReadyTimer(s)
    case SendCommand(command, data, id) => SendCommandStep(c, s, command, RequestData(data), id)
    case RequestTimerFires(id) =>
      var o := Expire(s.router, id);
      Out(s.(router := o.state), o.effects)
    case Cleanup => CleanupStep(s)
  }

  /** Every event of a run is admissible in the state it reaches. */
  predicate AdmissibleRun(c: JsonCodec, s: Main, es: seq<Event>)
    decreases |es|
  {
    |es| == 0 || (Admissible(s, es[0]) && AdmissibleRun(c, Step(c, s, es[0]).state, es[1..]))
  }

  /** A run of events from `s`: the final state and all effects in order. */
  function Run(c: JsonCodec, s: Main, es: seq<Event>): Out<Main>
    requires AdmissibleRun(c, s, es)
    decreases |es|
  {
    if |es| == 0 then Out(s, [])
    else
      var o1 := Step(c, s, es[0]);
      var o2 := Run(c, o1.state, es[1..]);
      Out(o2.state, o1.effects + o2.effects)
  }

  /** The ids of the requests a run sends. */
  function SentIds(es: seq<Event>): seq<string> {
    if |es| == 0 then [] else SentBy(es[0]) + SentIds(es[1..])
  }

  /** The id an event sends a request under, if any. */
  function SentBy(e: Event): seq<string> {
    if e.SendCommand? then [e.id] else []
  }

  // ---------------------------------------------------------------------
  // Properties
  // ---------------------------------------------------------------------

  /** What handling a sequence of messages does to the requests: the ids it
      settles are distinct, each was armed before and none is armed after;
      no new timer appears; and the invariant is kept. */
  lemma {:induction false} HandleMessagesSettles(s: Main, ms: seq<Json>)
    requires Inv(s)
    ensures var o := HandleMessages(s, ms);
            && Inv(o.state)
            && Distinct(SettledIds(o.effects))
            && (forall id :: id in SettledIds(o.effects) ==> id in s.router.timers && id !in o.state.router.timers)
            && o.state.router.timers.Keys <= s.router.timers.Keys
    decreases |ms|
  {
    var o := HandleMessages(s, ms);
    if |ms| > 0 {
      var o1 := HandleResponse(s, ms[0]);
      var o2 := HandleMessages(o1.state, ms[1..]);
      HandleMessagesSettles(o1.state, ms[1..]);
      SettledIdsAppend(o1.effects, o2.effects);
      var a := SettledIds(o1.effects);
      var b := SettledIds(o2.effects);
      assert |a| <= 1;
      if |a| == 1 {
        assert a[0] in s.router.timers && a[0] !in o1.state.router.timers;
      }
      DistinctAppend(a, b);
      assert SettledIds(o.effects) == a + b;
    }
  }

  /** What a step from `s` with outcome `o` may do to the requests: keep the
      invariant, settle distinct ids that were armed before and are not after,
      and arm no timer outside `sent`. */
  ghost predicate SettlesWell(s: Main, o: Out<Main>, sent: set<string>) {
    && Inv(o.state)
    && Distinct(SettledIds(o.effects))
    && (forall id :: id in SettledIds(o.effects) ==> id in s.router.timers && id !in o.state.router.timers)
    && o.state.router.timers.Keys <= s.router.timers.Keys + sent
  }

  /** A step that settles nothing and arms nothing new settles well. */
  lemma QuietSettlesWell(s: Main, o: Out<Main>, sent: set<string>)
    requires Inv(o.state) && o.state.router.timers.Keys <= s.router.timers.Keys + sent
    requires forall i :: 0 <= i < |o.effects| ==> !o.effects[i].Settled?
    ensures SettlesWell(s, o, sent)
  {
    NothingSettled(o.effects);
  }

  /** A request timer firing settles at most its own request. */
  lemma ExpireSettlesWell(c: JsonCodec, s: Main, id: string)
    requires Inv(s)
    ensures SettlesWell(s, Step(c, s, RequestTimerFires(id)), {})
  {
    var o := Step(c, s, RequestTimerFires(id));
    if id in s.router.timers {
      assert SettledIds(o.effects) == [id] + SettledIds([]);
    } else {
      NothingSettled(o.effects);
    }
  }

  /** Sending a command settles nothing and arms only its own timer. */
  lemma SendSettlesWell(c: JsonCodec, s: Main, command: string, data: Option<Json>, id: string)
    requires Inv(s) && Fresh(s.router, id)
    ensures SettlesWell(s, Step(c, s, SendCommand(command, data, id)), {id})
  {
    QuietSettlesWell(s, SendCommandStep(c, s, command, RequestData(data), id), {id});
  }

  /** What one step does to the requests: the ids it settles are distinct, each
      was armed before and none is armed after; the only timer that can
      appear is the sent request's. */
  lemma StepSettles(c: JsonCodec, s: Main, e: Event)
    requires Inv(s) && Admissible(s, e)
    ensures SettlesWell(s, Step(c, s, e), if e.SendCommand? then {e.id} else {})
  {
    match e
    case Stdout(chunk) =>
      var f := Cut(s.buffer + chunk);
      HandleMessagesSettles(s.(buffer := f.rest), Protocol.DecodeLines(c, f.complete));
    case RequestTimerFires(id) =>
      ExpireSettlesWell(c, s, id);
    case SendCommand(command, data, id) =>
      SendSettlesWell(c, s, command, data, id);
    case Initialize(env, found, w) =>
      QuietSettlesWell(s, InitializeStep(s, env, found, w), {});
    case WorkerError(message) =>
      QuietSettlesWell(s, OnError(s, message), {});
    case WorkerExit(code) =>
      QuietSettlesWell(s, OnExit(s, code), {});
    case ReadyTimerFires =>
      QuietSettlesWell(s, OnReadyTimer(s), {});
    case Cleanup =>
      QuietSettlesWell(s, CleanupStep(s), {});
  }

  /** Each request settles at most once over any run in which the generated ids
      are distinct and new: no response, timeout or cleanup settles a request
      twice, and every settled request was sent or already armed. */
  lemma {:induction false} EachRequestSettlesOnce(c: JsonCodec, s: Main, es: seq<Event>)
    requires Inv(s) && AdmissibleRun(c, s, es)
    requires Distinct(SentIds(es))
    requires forall id :: id in SentIds(es) ==> id !in s.router.timers
    ensures Distinct(SettledIds(Run(c, s, es).effects))
    ensures forall id :: id in SettledIds(Run(c, s, es).effects) ==> id in s.router.timers || id in SentIds(es)
    decreases |es|
  {
    if |es| > 0 {
      var e := es[0];
      var o1 := Step(c, s, e);
      var rest := es[1..];
      var o2 := Run(c, o1.state, rest);
      StepSettles(c, s, e);
      assert SentIds(es) == SentBy(e) + SentIds(rest);
      DistinctParts(SentBy(e), SentIds(rest));
      assert forall id :: id in SentIds(rest) ==> id !in o1.state.router.timers;
      EachRequestSettlesOnce(c, o1.state, rest);
      SettledIdsAppend(o1.effects, o2.effects);
      var a := SettledIds(o1.effects);
      var b := SettledIds(o2.effects);
      assert forall id :: id in b ==> id in o1.state.router.timers || id in SentIds(rest);
      assert forall id :: id in a ==> id in s.router.timers && id !in o1.state.router.timers;
      DistinctAppend(a, b);
    }
  }

  /** Handling messages settles the start promise at most once, only when a
      start was waiting, and a start it settles no longer waits. */
  lemma {:induction false} HandleMessagesSettleStartOnce(s: Main, ms: seq<Json>)
    ensures var o := HandleMessages(s, ms);
            && StartSettlements(o.effects) <= (if s.awaitingReady then 1 else 0)
            && (StartSettlements(o.effects) == 1 ==> !o.state.awaitingReady)
            && (!s.awaitingReady ==> !o.state.awaitingReady)
    decreases |ms|
  {
    if |ms| > 0 {
      var o1 := HandleResponse(s, ms[0]);
      var o2 := HandleMessages(o1.state, ms[1..]);
      HandleMessagesSettleStartOnce(o1.state, ms[1..]);
      StartSettlementsAppend(o1.effects, o2.effects);
      if !ms[0].JNull? && !IsReadyMessage(ms[0]) {
        assert StartSettlements(o1.effects) == 0 by {
          RespondSettlesNoStart(s.router, ms[0]);
        }
      }
    }
  }

  lemma RespondSettlesNoStart(r: Router, m: Json)
    ensures StartSettlements(Respond(r, m).effects) == 0
  {
  }

  /** The start promise of `initialize()` settles at most once: every event
      other than `initialize()` itself settles it only while a start waits,
      at most once, and stops the waiting when it does. */
  lemma StartSettlesOnce(c: JsonCodec, s: Main, e: Event)
    requires Admissible(s, e) && !e.Initialize?
    ensures var o := Step(c, s, e);
            && StartSettlements(o.effects) <= (if s.awaitingReady then 1 else 0)
            && (StartSettlements(o.effects) == 1 ==> !o.state.awaitingReady)
            && (!s.awaitingReady ==> !o.state.awaitingReady)
  {
    match e
    case Stdout(chunk) =>
      var f := Cut(s.buffer + chunk);
      HandleMessagesSettleStartOnce(s.(buffer := f.rest), Protocol.DecodeLines(c, f.complete));
    case RequestTimerFires(id) =>
      assert StartSettlements(Expire(s.router, id).effects) == 0;
    case _ =>
  }

  /** Handling the messages of `a` and then those of `b` is handling `a + b`. */
  lemma HandleMessagesAppend(s: Main, a: seq<Json>, b: seq<Json>)
    ensures var o1 := HandleMessages(s, a);
            var o2 := HandleMessages(o1.state, b);
            HandleMessages(s, a + b) == Out(o2.state, o1.effects + o2.effects)
  {
    FoldAppend(HandleResponse, s, a, b);
  }

  /** Chunking invariance of the main-process reader: two chunks have the same
      effects, in the same order, and leave the same state as their
      concatenation. */
  lemma StdoutChunking(c: JsonCodec, s: Main, a: string, b: string)
    ensures var o1 := OnStdout(c, s, a);
            var o2 := OnStdout(c, o1.state, b);
            OnStdout(c, s, a + b) == Out(o2.state, o1.effects + o2.effects)
  {
    var f1 := Cut(s.buffer + a);
    var m1 := Protocol.DecodeLines(c, f1.complete);
    var o1 := OnStdout(c, s, a);
    var f2 := Cut(f1.rest + b);
    var m2 := Protocol.DecodeLines(c, f2.complete);
    var o2 := OnStdout(c, o1.state, b);
    assert o2 == HandleMessages(o1.state.(buffer := f2.rest), m2);
    CutChunks(s.buffer, a, b);
    Protocol.DecodeLinesAppend(c, f1.complete, f2.complete);
    assert OnStdout(c, s, a + b) == HandleMessages(s.(buffer := f2.rest), m1 + m2);
    HandleMessagesBufferFree(s.(buffer := f1.rest), m1, f2.rest);
    assert s.(buffer := f1.rest).(buffer := f2.rest) == s.(buffer := f2.rest);
    HandleMessagesAppend(s.(buffer := f2.rest), m1, m2);
  }

  /** Handling messages never reads or writes the buffer. */
  lemma {:induction false} HandleMessagesBufferFree(s: Main, ms: seq<Json>, buf: string)
    ensures HandleMessages(s, ms).state.buffer == s.buffer
    ensures HandleMessages(s.(buffer := buf), ms) == Out(HandleMessages(s, ms).state.(buffer := buf), HandleMessages(s, ms).effects)
    decreases |ms|
  {
    if |ms| > 0 {
      HandleMessagesBufferFree(HandleResponse(s, ms[0]).state, ms[1..], buf);
      assert HandleResponse(s.(buffer := buf), ms[0]).state == HandleResponse(s, ms[0]).state.(buffer := buf);
    }
  }

  /** The request `sendCommand` writes is one line that the worker's reader
      decodes back to an envelope carrying `type: "request"`, the fresh id,
      the command and the data. */
  lemma SentRequestDecodes(c: JsonCodec, s: Main, command: string, data: Json, id: string)
    requires Lawful(c) && OnWire(data) && Fresh(s.router, id) && s.ready && s.worker.Some?
    ensures var o := SendCommandStep(c, s, command, data, id);
            var written := o.effects[1].text;
            var ms := Protocol.ProcessData(c, Protocol.Initial, written).messages;
            && |ms| == 1
            && Get(ms[0], "type") == Some(JStr("request"))
            && Get(ms[0], "request_id") == Some(JStr(id))
            && Get(ms[0], "command") == Some(JStr(command))
            && Get(ms[0], "data") == Some(data)
  {
    var env := RequestEnvelope(id, command, data);
    EnvelopeOnWire(id, command, data);
    Protocol.RoundTrip(c, env);
    EnvelopeFields(id, command, data);
  }

  /** A request envelope carrying data on the wire is on the wire. */
  lemma EnvelopeOnWire(id: string, command: string, data: Json)
    requires OnWire(data)
    ensures OnWire(RequestEnvelope(id, command, data))
  {
    var fields := RequestEnvelope(id, command, data).fields;
    assert forall k :: k in fields ==> fields[k] == data || fields[k].JStr?;
    ObjectOnWire(fields);
  }

  /** The fields of a request envelope. */
  lemma EnvelopeFields(id: string, command: string, data: Json)
    ensures var env := RequestEnvelope(id, command, data);
            && Get(env, "type") == Some(JStr("request"))
            && Get(env, "request_id") == Some(JStr(id))
            && Get(env, "command") == Some(JStr(command))
            && Get(env, "data") == Some(data)
  {
  }

  /** A newline-terminated message arriving on an empty buffer is handled on
      its own and leaves the buffer empty. */
  lemma StdoutOneMessage(c: JsonCodec, s: Main, m: Json)
    requires Lawful(c) && OnWire(m) && s.buffer == ""
    ensures OnStdout(c, s, Protocol.SerializeMessage(c, m)) == HandleResponse(s, m)
  {
    var line := Protocol.SerializeMessage(c, m);
    Protocol.RoundTrip(c, m);
    assert s.buffer + line == Protocol.Initial.buffer + line;
    var f := Cut(s.buffer + line);
    assert Protocol.DecodeLines(c, f.complete) == [m];
    assert s.(buffer := f.rest) == s;
    var h := HandleResponse(s, m);
    assert [m][1..] == [];
    assert Fold(HandleResponse, h.state, [m][1..]) == Out(h.state, []);
    assert HandleMessages(s, [m]) == Out(h.state, h.effects + []);
    assert h.effects + [] == h.effects;
  }

  /** A response line for a pending request settles it exactly once with the
      response's outcome and removes its entry and timer; the same line a
      second time changes nothing. */
  lemma ResponseSettlesOnce(c: JsonCodec, s: Main, response: Json)
    requires Lawful(c) && OnWire(response) && Inv(s) && s.buffer == ""
    requires !response.JNull? && !IsReadyMessage(response)
    requires ResponseKey(response).Some? && ResponseKey(response).value in s.router.pending
    ensures var line := Protocol.SerializeMessage(c, response);
            var id := ResponseKey(response).value;
            var o1 := OnStdout(c, s, line);
            var o2 := OnStdout(c, o1.state, line);
            && o1.effects == [Settled(id, ResponseOutcome(response))]
            && id !in o1.state.router.pending && id !in o1.state.router.timers
            && o2 == Out(o1.state, [])
  {
    StdoutOneMessage(c, s, response);
    var o1 := HandleResponse(s, response);
    StdoutOneMessage(c, o1.state, response);
    RespondOnce(s.router, response);
  }

  /** The readiness message resolves a waiting start exactly once, sets
      `ready`, and leaves the pending requests untouched; a second readiness
      message resolves nothing more. */
  lemma ReadinessHandshake(s: Main, m: Json)
    requires !m.JNull? && IsReadyMessage(m)
    ensures var o1 := HandleResponse(s, m);
            var o2 := HandleResponse(o1.state, m);
            && o1.state.ready && o1.state.router == s.router && o1.state.worker == s.worker
            && (s.awaitingReady <==> o1.effects == [StartSettled(Fulfilled(None))])
            && o2 == Out(o1.state, [])
  {
  }

  /** Readiness gating: a command sent after the worker exited, or before the
      readiness message arrived, is refused without writing anything. */
  lemma NotReadyRefused(c: JsonCodec, s: Main, code: Option<int>, command: string, data: Json, id: string)
    requires Fresh(s.router, id)
    ensures var o := OnExit(s, code);
            var send := SendCommandStep(c, o.state, command, data, id);
            send == Out(o.state, [Refused(Message("CLI client not initialized"))])
  {
  }

  /** No bulk cancellation: the worker exiting settles no request and keeps
      every pending entry; each is later rejected by its own timer. */
  lemma ExitLeavesRequestsToTimers(s: Main, code: Option<int>, id: string)
    requires id in s.router.timers
    ensures var o := OnExit(s, code);
            && o.state.router == s.router
            && SettledIds(o.effects) == []
            && Expire(o.state.router, id).effects == [Settled(id, Rejected(TimeoutReason(s.router.timers[id])))]
  {
    var o := OnExit(s, code);
    assert SettledIds(o.effects) == [] by {
      if o.effects != [] {
        assert SettledIds(o.effects) == SettledIds(o.effects[1..]);
      }
    }
  }

  /** Cleanup empties the pending map but a request it drops still has its
      timer, which later rejects it with the timeout message. */
  lemma CleanupThenTimeout(s: Main, id: string)
    requires s.worker.Some? && id in s.router.pending && Inv(s)
    ensures var o := CleanupStep(s);
            && o.state.router.pending == {}
            && !o.state.ready && o.state.worker.None?
            && Expire(o.state.router, id).effects == [Settled(id, Rejected(TimeoutReason(s.router.timers[id])))]
  {
  }

  /** A clean exit (code 0 or null) before readiness does not reject the start;
      the start-up timer does, when it fires. */
  lemma CleanExitLeavesStartToTimer(s: Main, code: Option<int>)
    requires code == None || code == Some(0)
    requires s.awaitingReady && s.readyTimers > 0
    ensures var o := OnExit(s, code);
            && o.effects == []
            && OnReadyTimer(o.state).effects == [StartSettled(Rejected(Message("Timeout waiting for CLI ready message")))]
  {
  }

  /** The readiness message the worker prints once it is up. */
  function Announcement(): Json {
    JObj(map["request_id" := JStr(SystemId), "success" := JBool(true),
             "data" := JObj(map["status" := JStr("ready")])])
  }

  /** A successful response carrying `data` for request `id`. */
  function Answer(id: string, data: Json): Json {
    JObj(map["request_id" := JStr(id), "success" := JBool(true), "data" := data])
  }

  /** The announcement, arriving as one line, makes the client ready and
      resolves a waiting start, touching nothing else. */
  lemma AnnouncementResolvesStart(c: JsonCodec, s: Main)
    requires Lawful(c) && s.buffer == ""
    ensures var o := OnStdout(c, s, Protocol.SerializeMessage(c, Announcement()));
            && o.state == s.(ready := true, awaitingReady := false)
            && o.effects == (if s.awaitingReady then [StartSettled(Fulfilled(None))] else [])
  {
    assert Get(Announcement(), "request_id") == Some(JStr(SystemId));
    assert Get(Announcement(), "data") == Some(JObj(map["status" := JStr("ready")]));
    assert IsReadyMessage(Announcement());
    AnnouncementOnWire();
    StdoutOneMessage(c, s, Announcement());
  }

  /** A successful answer for a pending request, arriving as one line, resolves
      that request with the answer's data. */
  lemma AnswerResolves(c: JsonCodec, s: Main, id: string, data: Json)
    requires Lawful(c) && OnWire(data) && s.buffer == "" && id != SystemId && id in s.router.pending
    ensures OnStdout(c, s, Protocol.SerializeMessage(c, Answer(id, data))).effects
              == [Settled(id, Fulfilled(Some(data)))]
  {
    var m := Answer(id, data);
    assert Get(m, "request_id") == Some(JStr(id));
    assert Get(m, "success") == Some(JBool(true));
    assert Get(m, "data") == Some(data);
    assert !IsReadyMessage(m);
    assert ResponseKey(m) == Some(id);
    AnswerOnWire(id, data);
    StdoutOneMessage(c, s, m);
  }

  /** The announcement holds no number, so it is on the wire. */
  lemma AnnouncementOnWire()
    ensures OnWire(Announcement())
  {
    var inner := map["status" := JStr("ready")];
    assert forall k :: k in inner ==> inner[k].JStr?;
    ObjectOnWire(inner);
    var fields := Announcement().fields;
    assert forall k :: k in fields ==> fields[k] == JObj(inner) || fields[k].JStr? || fields[k].JBool?;
    ObjectOnWire(fields);
  }

  /** An answer carrying data on the wire is on the wire. */
  lemma AnswerOnWire(id: string, data: Json)
    requires OnWire(data)
    ensures OnWire(Answer(id, data))
  {
    var fields := Answer(id, data).fields;
    assert forall k :: k in fields ==> fields[k] == data || fields[k].JStr? || fields[k].JBool?;
    ObjectOnWire(fields);
  }

  /** The documented end-to-end exchange: the worker announces readiness, a
      command goes out under a fresh id, and the worker's answer resolves it
      with the data. */
  lemma EndToEnd(c: JsonCodec, env: CliPaths.HostEnv, w: nat, command: string, id: string, data: Json)
    requires Lawful(c) && OnWire(data) && id != SystemId
    ensures var s1 := InitializeStep(Initial, env, true, w);
            var s2 := OnStdout(c, s1.state, Protocol.SerializeMessage(c, Announcement()));
            && s2.effects == [StartSettled(Fulfilled(None))]
            && s2.state.ready && s2.state.router == Correlation.Empty
            && var s3 := SendCommandStep(c, s2.state, command, data, id);
            var s4 := OnStdout(c, s3.state, Protocol.SerializeMessage(c, Answer(id, data)));
            && s3.effects == [Armed(RequestTimeout(id), RequestTimeoutMs),
                              Write(Protocol.SerializeMessage(c, RequestEnvelope(id, command, data)))]
            && s4.effects == [Settled(id, Fulfilled(Some(data)))]
  {
    var s1 := InitializeStep(Initial, env, true, w);
    AnnouncementResolvesStart(c, s1.state);
    var s2 := OnStdout(c, s1.state, Protocol.SerializeMessage(c, Announcement()));
    var s3 := SendCommandStep(c, s2.state, command, data, id);
    AnswerResolves(c, s3.state, id, data);
  }
}
