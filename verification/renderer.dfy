/**
  The renderer-side worker client. It shares the line framing and the
  request/response correlation with the main-process client, and adds two
  things: messages whose `type` is "event" go to subscribers registered with
  `on(event, callback)`, and the request timeout is configurable. It has no
  readiness handshake: `initialize()` resolves as soon as the process is
  spawned.

  Subscribers are identified by a number standing for the callback's identity
  (`indexOf` compares callbacks by identity). Whether a callback throws when
  called with an event is given by the `raises` parameter: a throwing
  callback stops the remaining callbacks for that event, and the line loop
  catches the exception and goes on with the next line.
 */
module RendererClient {
  import opened Wrappers
  import opened Json
  import opened Framing
  import Protocol
  import opened Effects
  import opened Correlation
  import CliPaths

  /** The constructor's argument; every field may be left out. */
  datatype ClientOptions = ClientOptions(pythonPath: Option<string>, cliModule: Option<string>, timeout: Option<int>)

  /** The options the client keeps, with every field filled in. */
  datatype Settings = Settings(pythonPath: string, cliModule: string, timeout: int)

  const DefaultPythonPath: string := "python3"
  const DefaultCliModule: string := "touchline_cli.main"
  const DefaultTimeoutMs: int := 30000

  /** The constructor's `option || default`: a missing, empty or zero option
      takes its default, any other value is kept. */
  function Configure(o: ClientOptions): (s: Settings)
    ensures o.pythonPath in {None, Some("")} ==> s.pythonPath == DefaultPythonPath
    ensures o.cliModule in {None, Some("")} ==> s.cliModule == DefaultCliModule
    ensures o.timeout in {None, Some(0)} ==> s.timeout == DefaultTimeoutMs
    ensures o.pythonPath.Some? && o.pythonPath.value != "" ==> s.pythonPath == o.pythonPath.value
    ensures o.cliModule.Some? && o.cliModule.value != "" ==> s.cliModule == o.cliModule.value
    ensures o.timeout.Some? && o.timeout.value != 0 ==> s.timeout == o.timeout.value
    ensures s.pythonPath != "" && s.cliModule != "" && s.timeout != 0
  {
    Settings(
      if o.pythonPath.Some? && o.pythonPath.value != "" then o.pythonPath.value else DefaultPythonPath,
      if o.cliModule.Some? && o.cliModule.value != "" then o.cliModule.value else DefaultCliModule,
      if o.timeout.Some? && o.timeout.value != 0 then o.timeout.value else DefaultTimeoutMs)
  }

  /** The client's fields. `handlers` maps an event name to its subscribers in
      subscription order. */
  datatype Client = Client(
    worker: Option<nat>,
    router: Router,
    handlers: map<string, seq<nat>>,
    buffer: string,
    ready: bool,
    settings: Settings)

  /** `new TouchlineClient(options)`. */
  function New(o: ClientOptions): (s: Client)
    ensures s.worker.None? && s.router == Correlation.Empty && s.handlers == map[]
    ensures s.buffer == "" && !s.ready && s.settings == Configure(o)
  {
    Client(None, Correlation.Empty, map[], "", false, Configure(o))
  }

  /** The function `on` returns: it removes `handler` from `name`'s list. */
  datatype Unsubscriber = Unsubscriber(name: string, handler: nat)

  datatype Event =
    | Initialize(env: CliPaths.HostEnv, worker: nat)                  // initialize(), with the spawned process
    | Stdout(chunk: string)                                           // a chunk of the worker's stdout
    | WorkerError(message: string)                                    // the process 'error' event
    | WorkerExit(code: Option<int>)                                   // the process 'exit' event (None: null code)
    | SendCommand(command: string, data: Option<Json>, id: string)    // sendCommand(command, data?), id from uuidv4()
    | RequestTimerFires(id: string)                                   // the timeout of request `id` expires
    | Subscribe(name: string, handler: nat)                           // on(name, handler)
    | Unsubscribe(u: Unsubscriber)                                    // calling a function `on` returned
    | Cleanup                                                         // cleanup()

  /** A UUID never collides with an id in use. */
  predicate Admissible(s: Client, e: Event) {
    e.SendCommand? ==> Fresh(s.router, e.id)
  }

  /** The subscribers of `name`; an absent list counts as empty. */
  function HandlersOf(s: Client, name: string): seq<nat> {
    if name in s.handlers then s.handlers[name] else []
  }

  // ---------------------------------------------------------------------
  // Subscriptions
  // ---------------------------------------------------------------------

  /** The first position of `h` in `hs`, or -1 (`indexOf`). */
  function IndexOf(hs: seq<nat>, h: nat): (i: int)
    ensures -1 <= i < |hs|
    ensures i == -1 <==> h !in hs
    ensures i >= 0 ==> hs[i] == h && h !in hs[..i]
  {
    if |hs| == 0 then -1
    else if hs[0] == h then 0
    else
      var j := IndexOf(hs[1..], h);
      assert j >= 0 ==> hs[1..][..j] == hs[1..j + 1];
      if j == -1 then -1 else j + 1
  }

  /** `indexOf` and `splice(index, 1)`: the first occurrence of `h` removed. */
  function RemoveFirst(hs: seq<nat>, h: nat): (r: seq<nat>)
    ensures h !in hs ==> r == hs
    ensures h in hs ==> |r| == |hs| - 1 && multiset(r) == multiset(hs) - multiset{h}
    ensures h in hs ==> r == hs[..IndexOf(hs, h)] + hs[IndexOf(hs, h) + 1..]
  {
    var i := IndexOf(hs, h);
    if i == -1 then hs
    else
      assert hs == hs[..i] + [hs[i]] + hs[i + 1..];
      hs[..i] + hs[i + 1..]
  }

  /** `on(name, handler)`: `handler` goes at the end of `name`'s list (a list
      is created when there is none), and the unsubscriber for it is returned. */
  function On(s: Client, name: string, handler: nat): (r: (Client, Unsubscriber))
    ensures r.1 == Unsubscriber(name, handler)
    ensures name in r.0.handlers && HandlersOf(r.0, name) == HandlersOf(s, name) + [handler]
    ensures forall n :: n != name ==> (n in r.0.handlers <==> n in s.handlers) && HandlersOf(r.0, n) == HandlersOf(s, n)
    ensures r.0 == s.(handlers := r.0.handlers)
  {
    (s.(handlers := s.handlers[name := HandlersOf(s, name) + [handler]]), Unsubscriber(name, handler))
  }

  /** Calling the unsubscriber: the first occurrence of its handler leaves its
      event's list, if that list still exists; every other list is left alone
      and an emptied list stays in the map. */
  function Unsubscribed(s: Client, u: Unsubscriber): (r: Client)
    ensures u.name !in s.handlers ==> r == s
    ensures u.name in s.handlers ==> u.name in r.handlers && r.handlers[u.name] == RemoveFirst(s.handlers[u.name], u.handler)
    ensures forall n :: n != u.name ==> (n in r.handlers <==> n in s.handlers) && HandlersOf(r, n) == HandlersOf(s, n)
    ensures r == s.(handlers := r.handlers)
  {
    if u.name in s.handlers then
      s.(handlers := s.handlers[u.name := RemoveFirst(s.handlers[u.name], u.handler)])
    else s
  }

  /** `handlers.forEach(handler => handler(event))`: the handlers are called
      in order until one throws; the one that throws is the last called. */
  function Dispatch(raises: (nat, Json) -> bool, hs: seq<nat>, ev: Json): (r: seq<Effect>)
    ensures |r| <= |hs|
    ensures forall i :: 0 <= i < |r| ==> r[i] == Invoked(hs[i], ev)
    ensures forall i :: 0 <= i < |r| - 1 ==> !raises(hs[i], ev)
    ensures |r| < |hs| ==> |r| > 0 && raises(hs[|r| - 1], ev)
  {
    if |hs| == 0 then []
    else if raises(hs[0], ev) then [Invoked(hs[0], ev)]
    else
      var rest := Dispatch(raises, hs[1..], ev);
      assert forall i :: 0 < i <= |rest| ==> ([Invoked(hs[0], ev)] + rest)[i] == rest[i - 1];
      [Invoked(hs[0], ev)] + rest
  }

  // ---------------------------------------------------------------------
  // Incoming messages
  // ---------------------------------------------------------------------

  /** Whether a parsed message is an event: its `type` is "event". */
  predicate IsEvent(m: Json) {
    IsString(Get(m, "type"), "event")
  }

  /** `handleEvent(event)`: the subscribers of the event's name are called.
      Only a string name can equal a subscription key. */
  function HandleEvent(raises: (nat, Json) -> bool, s: Client, ev: Json): (effects: seq<Effect>)
  {
    match Get(ev, "event")
    case Some(JStr(name)) => if name in s.handlers then Dispatch(raises, s.handlers[name], ev) else []
    case _ => []
  }

  /** One decoded line. Reading `type` of `null` throws and the line is
      dropped; an event goes to its subscribers and changes no state;
      anything else goes to the correlation router. */
  function HandleMessage(raises: (nat, Json) -> bool, s: Client, m: Json): (out: Out<Client>)
    ensures m.JNull? ==> out == Out(s, [])
    ensures !m.JNull? && IsEvent(m) ==> out.state == s && SettledIds(out.effects) == []
    ensures !m.JNull? && !IsEvent(m) ==>
              out == Out(s.(router := Respond(s.router, m).state), Respond(s.router, m).effects)
  {
    if m.JNull? then Out(s, [])
    else if IsEvent(m) then
      var es := HandleEvent(raises, s, m);
      NoSettlementsInDispatch(es);
      Out(s, es)
    else
      var o := Respond(s.router, m);
      Out(s.(router := o.state), o.effects)
  }

  /** Effects that are all handler calls settle nothing. */
  lemma {:induction false} NoSettlementsInDispatch(es: seq<Effect>)
    requires forall i :: 0 <= i < |es| ==> es[i].Invoked?
    ensures SettledIds(es) == []
    decreases |es|
  {
    if |es| > 0 {
      NoSettlementsInDispatch(es[1..]);
    }
  }

  /** The line loop of `processBuffer`, over the messages the lines decode to. */
  function HandleMessages(raises: (nat, Json) -> bool, s: Client, ms: seq<Json>): Out<Client> {
    Fold((st: Client, m: Json) => HandleMessage(raises, st, m), s, ms)
  }

  /** One turn of the line loop. */
  lemma HandleMessagesCons(raises: (nat, Json) -> bool, s: Client, ms: seq<Json>)
    requires |ms| > 0
    ensures var o1 := HandleMessage(raises, s, ms[0]);
            var o2 := HandleMessages(raises, o1.state, ms[1..]);
            HandleMessages(raises, s, ms) == Out(o2.state, o1.effects + o2.effects)
  {
  }

  /** Handling messages never reads or writes the buffer. */
  lemma {:induction false} HandleMessagesBufferFree(raises: (nat, Json) -> bool, s: Client, ms: seq<Json>, buf: string)
    ensures HandleMessages(raises, s, ms).state.buffer == s.buffer
    ensures HandleMessages(raises, s.(buffer := buf), ms)
              == Out(HandleMessages(raises, s, ms).state.(buffer := buf), HandleMessages(raises, s, ms).effects)
    decreases |ms|
  {
    if |ms| > 0 {
      HandleMessagesBufferFree(raises, HandleMessage(raises, s, ms[0]).state, ms[1..], buf);
      assert HandleMessage(raises, s.(buffer := buf), ms[0]).state == HandleMessage(raises, s, ms[0]).state.(buffer := buf);
    }
  }

  /** A stdout chunk: appended to the buffer, then the complete lines are
      handled in order and the unterminated tail is kept. */
  function OnStdout(c: JsonCodec, raises: (nat, Json) -> bool, s: Client, chunk: string): (out: Out<Client>)
    ensures NoNewline(out.state.buffer)
    ensures Unlines(Cut(s.buffer + chunk).complete) + out.state.buffer == s.buffer + chunk
    ensures out.state.buffer == Cut(s.buffer + chunk).rest
    ensures out == HandleMessages(raises, s.(buffer := Cut(s.buffer + chunk).rest),
                                  Protocol.DecodeLines(c, Cut(s.buffer + chunk).complete))
  {
    var f := Cut(s.buffer + chunk);
    HandleMessagesBufferFree(raises, s.(buffer := f.rest), Protocol.DecodeLines(c, f.complete), f.rest);
    HandleMessages(raises, s.(buffer := f.rest), Protocol.DecodeLines(c, f.complete))
  }

  // ---------------------------------------------------------------------
  // Commands and lifecycle
  // ---------------------------------------------------------------------

  /** The request the renderer client writes; unlike the main-process client's
      it has no `type` field. */
  function RequestEnvelope(id: string, command: string, data: Json): Json {
    JObj(map["request_id" := JStr(id), "command" := JStr(command), "data" := data])
  }

  /** `initialize()`: the process is spawned and the client is ready at once;
      the start promise resolves without waiting for any output. */
  function InitializeStep(s: Client, env: CliPaths.HostEnv, w: nat): (out: Out<Client>)
    ensures out.state == s.(worker := Some(w), ready := true)
    ensures out.effects == [Spawned(w, CliPaths.Render(CliPaths.WorkerCliPath(env), env.platform)),
                            StartSettled(Fulfilled(None))]
  {
    Out(s.(worker := Some(w), ready := true),
        [Spawned(w, CliPaths.Render(CliPaths.WorkerCliPath(env), env.platform)), StartSettled(Fulfilled(None))])
  }

  /** The 'exit' event: readiness is lost. The rejection a failing exit
      attempts targets the start promise, which has already resolved, so it
      has no effect; pending requests are left to their timers. */
  function OnExit(s: Client, code: Option<int>): (out: Out<Client>)
    ensures out == Out(s.(ready := false), [])
  {
    Out(s.(ready := false), [])
  }

  /** `sendCommand(command, data)`: refused unless ready with a process;
      otherwise one pending entry, one timer with the configured delay and one
      written request. */
  function SendCommandStep(c: JsonCodec, s: Client, command: string, data: Json, id: string): (out: Out<Client>)
    requires Fresh(s.router, id)
    ensures !s.ready || s.worker.None? ==> out == Out(s, [Refused(Message("CLI client not initialized"))])
    ensures s.ready && s.worker.Some? ==>
              && out.state == s.(router := Register(s.router, id, command))
              && out.effects == [Armed(RequestTimeout(id), s.settings.timeout),
                                 Write(Protocol.SerializeMessage(c, RequestEnvelope(id, command, data)))]
  {
    if !s.ready || s.worker.None? then Out(s, [Refused(Message("CLI client not initialized"))])
    else
      Out(s.(router := Register(s.router, id, command)),
          [Armed(RequestTimeout(id), s.settings.timeout),
           Write(Protocol.SerializeMessage(c, RequestEnvelope(id, command, data)))])
  }

  /** `cleanup()`: with a process, kill it, drop it, clear readiness, the
      pending map and every subscription; without one, nothing. The buffer is
      not cleared. */
  function CleanupStep(s: Client): (out: Out<Client>)
    ensures s.worker.None? ==> out == Out(s, [])
    ensures s.worker.Some? ==>
              && out.state == s.(worker := None, ready := false, router := ClearPending(s.router), handlers := map[])
              && out.effects == [Killed(s.worker.value, SIGTERM)]
  {
    match s.worker
    case None => Out(s, [])
    case Some(w) =>
      Out(s.(worker := None, ready := false, router := ClearPending(s.router), handlers := map[]), [Killed(w, SIGTERM)])
  }

  /** One event. */
  function Step(c: JsonCodec, raises: (nat, Json) -> bool, s: Client, e: Event): Out<Client>
    requires Admissible(s, e)
  {
    match e
    case Initialize(env, w) => InitializeStep(s, env, w)
    case Stdout(chunk) => OnStdout(c, raises, s, chunk)
    case WorkerError(_) => Out(s, [])
    case WorkerExit(code) => OnExit(s, code)
    case SendCommand(command, data, id) => SendCommandStep(c, s, command, RequestData(data), id)
    case RequestTimerFires(id) =>
      var o := Expire(s.router, id);
      Out(s.(router := o.state), o.effects)
    case Subscribe(name, h) => Out(On(s, name, h).0, [])
    case Unsubscribe(u) => Out(Unsubscribed(s, u), [])
    case Cleanup => CleanupStep(s)
  }

  /** Every event of a run is admissible in the state it reaches. */
  predicate AdmissibleRun(c: JsonCodec, raises: (nat, Json) -> bool, s: Client, es: seq<Event>)
    decreases |es|
  {
    |es| == 0 || (Admissible(s, es[0]) && AdmissibleRun(c, raises, Step(c, raises, s, es[0]).state, es[1..]))
  }

  /** A run of events from `s`: the final state and all effects in order. */
  function Run(c: JsonCodec, raises: (nat, Json) -> bool, s: Client, es: seq<Event>): Out<Client>
    requires AdmissibleRun(c, raises, s, es)
    decreases |es|
  {
    if |es| == 0 then Out(s, [])
    else
      var o1 := Step(c, raises, s, es[0]);
      var o2 := Run(c, raises, o1.state, es[1..]);
      Out(o2.state, o1.effects + o2.effects)
  }

  /** The ids of the requests a run sends. */
  function SentIds(es: seq<Event>): seq<string> {
    if |es| == 0 then [] else SentBy(es[0]) + SentIds(es[1..])
  }

  /** The id an event sends a request under, if any. */
  function SentBy(e: Event): seq<string> {
    if e.SendCommand? then [e.id] else []
  }

  // ---------------------------------------------------------------------
  // Properties
  // ---------------------------------------------------------------------

  /** Without a handshake, a command can be sent right after `initialize()`,
      before the worker has printed anything; the start is already resolved,
      so neither an error nor a failing exit can reject it afterwards. */
  lemma NoHandshake(c: JsonCodec, s: Client, env: CliPaths.HostEnv, w: nat, code: Option<int>,
                    command: string, data: Json, id: string)
    requires Fresh(s.router, id)
    ensures var init := InitializeStep(s, env, w);
            && init.effects[1] == StartSettled(Fulfilled(None))
            && SendCommandStep(c, init.state, command, data, id).effects[0] == Armed(RequestTimeout(id), s.settings.timeout)
            && Step(c, (h, v) => false, init.state, WorkerError("spawn failed")).effects == []
            && OnExit(init.state, code).effects == []
  {
  }

  /** An event message never settles a request, even when it carries the id of
      a pending one, and changes no state. */
  lemma EventsNeverSettle(raises: (nat, Json) -> bool, s: Client, m: Json)
    requires !m.JNull? && IsEvent(m)
    ensures HandleMessage(raises, s, m).state == s
    ensures SettledIds(HandleMessage(raises, s, m).effects) == []
  {
  }

  /** Delivery order: when no subscriber throws, an event reaches every
      subscriber of its name, in subscription order, once per subscription. */
  lemma EventReachesSubscribers(raises: (nat, Json) -> bool, s: Client, ev: Json, name: string)
    requires !ev.JNull? && IsEvent(ev) && Get(ev, "event") == Some(JStr(name))
    requires forall h :: h in HandlersOf(s, name) ==> !raises(h, ev)
    ensures var es := HandleMessage(raises, s, ev).effects;
            && |es| == |HandlersOf(s, name)|
            && forall i :: 0 <= i < |es| ==> es[i] == Invoked(HandlersOf(s, name)[i], ev)
  {
  }

  /** Handler exceptions are not isolated: the subscribers after the first
      that throws are not called for that event. */
  lemma ThrowingHandlerStopsDelivery(raises: (nat, Json) -> bool, s: Client, ev: Json, name: string, k: nat)
    requires !ev.JNull? && IsEvent(ev) && Get(ev, "event") == Some(JStr(name))
    requires k < |HandlersOf(s, name)| && raises(HandlersOf(s, name)[k], ev)
    ensures var es := HandleMessage(raises, s, ev).effects;
            && |es| <= k + 1
            && forall i :: k < i < |HandlersOf(s, name)| ==> Invoked(HandlersOf(s, name)[i], ev) !in es || HandlersOf(s, name)[i] in HandlersOf(s, name)[..k + 1]
  {
    var hs := HandlersOf(s, name);
    var es := HandleMessage(raises, s, ev).effects;
    forall i | k < i < |hs| && Invoked(hs[i], ev) in es
      ensures hs[i] in hs[..k + 1]
    {
      var j :| 0 <= j < |es| && es[j] == Invoked(hs[i], ev);
      assert hs[j] == hs[i] && hs[..k + 1][j] == hs[j];
    }
  }

  /** Subscribing and then calling the returned unsubscriber restores every
      subscriber list, when the handler was not already subscribed to that
      name (an emptied list stays as an empty entry). */
  lemma SubscribeThenUnsubscribe(s: Client, name: string, h: nat)
    requires h !in HandlersOf(s, name)
    ensures var (s1, u) := On(s, name, h);
            var s2 := Unsubscribed(s1, u);
            && s2 == s.(handlers := s2.handlers)
            && forall n :: HandlersOf(s2, n) == HandlersOf(s, n)
  {
    var (s1, u) := On(s, name, h);
    var hs := HandlersOf(s, name);
    assert IndexOf(hs + [h], h) == |hs| by {
      IndexOfAppend(hs, h);
    }
    assert (hs + [h])[..|hs|] + (hs + [h])[|hs| + 1..] == hs;
  }

  /** The position of a handler appended to a list that lacks it is the end. */
  lemma {:induction false} IndexOfAppend(hs: seq<nat>, h: nat)
    requires h !in hs
    ensures IndexOf(hs + [h], h) == |hs|
    decreases |hs|
  {
    if |hs| > 0 {
      assert (hs + [h])[1..] == hs[1..] + [h];
      IndexOfAppend(hs[1..], h);
    }
  }

  /** An unsubscriber only removes from its own event's list, one
      registration per call: a handler subscribed twice under a name needs two
      calls. */
  lemma UnsubscribeRemovesOne(s: Client, name: string, h: nat)
    requires name in s.handlers && h in s.handlers[name]
    ensures var r := Unsubscribed(s, Unsubscriber(name, h));
            && multiset(HandlersOf(r, name))[h] == multiset(HandlersOf(s, name))[h] - 1
            && |HandlersOf(r, name)| == |HandlersOf(s, name)| - 1
  {
  }

  /** Calling an unsubscriber a second time does nothing when its handler was
      subscribed to that name once. */
  lemma SecondUnsubscribeIsNoOp(s: Client, u: Unsubscriber)
    requires u.name in s.handlers && multiset(s.handlers[u.name])[u.handler] == 1
    ensures var r := Unsubscribed(s, u);
            && u.handler !in HandlersOf(r, u.name)
            && Unsubscribed(r, u) == r
  {
    var r := Unsubscribed(s, u);
    assert multiset(r.handlers[u.name])[u.handler] == 0;
    assert r.handlers[u.name := r.handlers[u.name]] == r.handlers;
  }

  /** After cleanup no event reaches any former subscriber, and an old
      unsubscriber does nothing. */
  lemma CleanupDropsSubscriptions(raises: (nat, Json) -> bool, s: Client, ev: Json, u: Unsubscriber)
    requires s.worker.Some?
    ensures var r := CleanupStep(s).state;
            && HandleEvent(raises, r, ev) == []
            && Unsubscribed(r, u) == r
  {
  }

  /** An unsubscriber names only the event and the callback, not the
      registration it made: after cleanup, subscribing the same callback to
      the same event again and then calling the old unsubscriber removes the
      new registration. */
  lemma StaleUnsubscriberRemovesResubscription(s: Client, name: string, h: nat)
    requires s.worker.Some?
    ensures var r := CleanupStep(s).state;
            var (r1, u) := On(r, name, h);
            && HandlersOf(r1, name) == [h]
            && u == Unsubscriber(name, h)
            && HandlersOf(Unsubscribed(r1, Unsubscriber(name, h)), name) == []
  {
  }

  /** Chunking invariance of the renderer reader. */
  lemma HandleMessagesAppend(raises: (nat, Json) -> bool, s: Client, a: seq<Json>, b: seq<Json>)
    ensures var o1 := HandleMessages(raises, s, a);
            var o2 := HandleMessages(raises, o1.state, b);
            HandleMessages(raises, s, a + b) == Out(o2.state, o1.effects + o2.effects)
  {
    FoldAppend((st: Client, m: Json) => HandleMessage(raises, st, m), s, a, b);
  }

  /** Two chunks have the same effects, in the same order, and leave the same
      state as their concatenation. */
  lemma StdoutChunking(c: JsonCodec, raises: (nat, Json) -> bool, s: Client, a: string, b: string)
    ensures var o1 := OnStdout(c, raises, s, a);
            var o2 := OnStdout(c, raises, o1.state, b);
            OnStdout(c, raises, s, a + b) == Out(o2.state, o1.effects + o2.effects)
  {
    var f1 := Cut(s.buffer + a);
    var m1 := Protocol.DecodeLines(c, f1.complete);
    var o1 := OnStdout(c, raises, s, a);
    assert o1.state.buffer == f1.rest;
    var f2 := Cut(f1.rest + b);
    var m2 := Protocol.DecodeLines(c, f2.complete);
    var o2 := OnStdout(c, raises, o1.state, b);
    assert o2 == HandleMessages(raises, o1.state.(buffer := f2.rest), m2);
    CutChunks(s.buffer, a, b);
    Protocol.DecodeLinesAppend(c, f1.complete, f2.complete);
    assert OnStdout(c, raises, s, a + b) == HandleMessages(raises, s.(buffer := f2.rest), m1 + m2);
    HandleMessagesBufferFree(raises, s.(buffer := f1.rest), m1, f2.rest);
    assert s.(buffer := f1.rest).(buffer := f2.rest) == s.(buffer := f2.rest);
    HandleMessagesAppend(raises, s.(buffer := f2.rest), m1, m2);
  }

  /** The request `sendCommand` writes decodes back, on the worker's side, to
      an envelope with the fresh id, the command and the data, and no `type`. */
  lemma SentRequestDecodes(c: JsonCodec, s: Client, command: string, data: Json, id: string)
    requires Lawful(c) && OnWire(data) && Fresh(s.router, id) && s.ready && s.worker.Some?
    ensures var written := SendCommandStep(c, s, command, data, id).effects[1].text;
            var ms := Protocol.ProcessData(c, Protocol.Initial, written).messages;
            && |ms| == 1
            && Get(ms[0], "type") == None
            && Get(ms[0], "request_id") == Some(JStr(id))
            && Get(ms[0], "command") == Some(JStr(command))
            && Get(ms[0], "data") == Some(data)
  {
    var env := RequestEnvelope(id, command, data);
    EnvelopeOnWire(id, command, data);
    Protocol.RoundTrip(c, env);
    EnvelopeFields(id, command, data);
  }

  /** A request envelope carrying data on the wire is on the wire. */
  lemma EnvelopeOnWire(id: string, command: string, data: Json)
    requires OnWire(data)
    ensures OnWire(RequestEnvelope(id, command, data))
  {
    var fields := RequestEnvelope(id, command, data).fields;
    assert forall k :: k in fields ==> fields[k] == data || fields[k].JStr?;
    ObjectOnWire(fields);
  }

  /** The fields of a request envelope. */
  lemma EnvelopeFields(id: string, command: string, data: Json)
    ensures var env := RequestEnvelope(id, command, data);
            && Get(env, "type") == None
            && Get(env, "request_id") == Some(JStr(id))
            && Get(env, "command") == Some(JStr(command))
            && Get(env, "data") == Some(data)
  {
  }

  /** What handling a sequence of messages does to the requests: the ids it
      settles are distinct, each was armed before and none is armed after. */
  lemma {:induction false} HandleMessagesSettles(raises: (nat, Json) -> bool, s: Client, ms: seq<Json>)
    requires Valid(s.router)
    ensures var o := HandleMessages(raises, s, ms);
            && Valid(o.state.router)
            && Distinct(SettledIds(o.effects))
            && (forall id :: id in SettledIds(o.effects) ==> id in s.router.timers && id !in o.state.router.timers)
            && o.state.router.timers.Keys <= s.router.timers.Keys
    decreases |ms|
  {
    var o := HandleMessages(raises, s, ms);
    if |ms| > 0 {
      var o1 := HandleMessage(raises, s, ms[0]);
      var o2 := HandleMessages(raises, o1.state, ms[1..]);
      HandleMessagesSettles(raises, o1.state, ms[1..]);
      SettledIdsAppend(o1.effects, o2.effects);
      var a := SettledIds(o1.effects);
      var b := SettledIds(o2.effects);
      assert |a| <= 1 by {
        if !ms[0].JNull? && !IsEvent(ms[0]) {
          assert |o1.effects| <= 1;
        }
      }
      if |a| == 1 {
        assert a[0] in s.router.timers && a[0] !in o1.state.router.timers;
      }
      DistinctAppend(a, b);
      assert SettledIds(o.effects) == a + b;
    }
  }

  /** Every step keeps each pending request's timer armed, the ids a step
      settles were armed and are no longer, and the only timer that can
      appear is the sent request's. */
  lemma StepSettles(c: JsonCodec, raises: (nat, Json) -> bool, s: Client, e: Event)
    requires Valid(s.router) && Admissible(s, e)
    ensures var o := Step(c, raises, s, e);
            && Valid(o.state.router)
            && Distinct(SettledIds(o.effects))
            && (forall id :: id in SettledIds(o.effects) ==> id in s.router.timers && id !in o.state.router.timers)
            && o.state.router.timers.Keys <= s.router.timers.Keys + (if e.SendCommand? then {e.id} else {})
  {
    match e
    case Stdout(chunk) =>
      var f := Cut(s.buffer + chunk);
      HandleMessagesSettles(raises, s.(buffer := f.rest), Protocol.DecodeLines(c, f.complete));
    case _ =>
  }

  /** Each request settles at most once over any run in which the generated ids
      are distinct and new: no response, timeout or cleanup settles a request
      twice, and every settled request was sent or already armed. */
  lemma {:induction false} EachRequestSettlesOnce(c: JsonCodec, raises: (nat, Json) -> bool, s: Client, es: seq<Event>)
    requires Valid(s.router) && AdmissibleRun(c, raises, s, es)
    requires Distinct(SentIds(es))
    requires forall id :: id in SentIds(es) ==> id !in s.router.timers
    ensures Distinct(SettledIds(Run(c, raises, s, es).effects))
    ensures forall id :: id in SettledIds(Run(c, raises, s, es).effects) ==> id in s.router.timers || id in SentIds(es)
    decreases |es|
  {
    if |es| > 0 {
      var e := es[0];
      var o1 := Step(c, raises, s, e);
      var rest := es[1..];
      var o2 := Run(c, raises, o1.state, rest);
      StepSettles(c, raises, s, e);
      assert SentIds(es) == SentBy(e) + SentIds(rest);
      DistinctParts(SentBy(e), SentIds(rest));
      assert forall id :: id in SentIds(rest) ==> id !in o1.state.router.timers;
      EachRequestSettlesOnce(c, raises, o1.state, rest);
      SettledIdsAppend(o1.effects, o2.effects);
      var a := SettledIds(o1.effects);
      var b := SettledIds(o2.effects);
      assert forall id :: id in b ==> id in o1.state.router.timers || id in SentIds(rest);
      assert forall id :: id in a ==> id in s.router.timers && id !in o1.state.router.timers;
      DistinctAppend(a, b);
    }
  }
}
