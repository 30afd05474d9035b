/**
  The worker process manager used by the Electron side: it starts the worker
  once, hands every decoded stdout message to an `onMessage` callback, writes
  messages to the worker's stdin and shuts the worker down with SIGTERM,
  escalating to SIGKILL after 5 s.

  A worker process is identified by a number (its handle). At most one
  process is current; `exit` is the current process exiting. The manager's
  `onMessage` and `onError` callbacks are assumed not to throw.
 */
module CliManager {
  import opened Wrappers
  import opened Json
  import opened Framing
  import Protocol
  import opened Effects
  import CliPaths

  /** A field of the constructor's options object: left out, present with the
      value `undefined`, or given. */
  datatype Field = Missing | Undefined | Given(value: string)

  /** The constructor's argument. Only the presence of the two callbacks
      matters to the model. */
  datatype ManagerOptions = ManagerOptions(pythonPath: Field, cliModule: Field, onMessage: bool, onError: bool)

  /** The options the manager keeps (`None` for a field whose value is
      `undefined`). */
  datatype Config = Config(pythonPath: Option<string>, cliModule: Option<string>, onMessage: bool, onError: bool)

  /** `{ field: options.field || default, ...options }`: the spread comes last,
      so a field that is present in `options` overrides the default whatever
      its value; only a left-out field takes the default. */
  function StoredField(f: Field, default: string): (v: Option<string>)
    ensures v == Some(default) <==> f.Missing? || f == Given(default)
    ensures f.Undefined? ==> v == None
    ensures f.Given? ==> v == Some(f.value)
  {
    match f
    case Missing => Some(default)
    case Undefined => None
    case Given(x) => Some(x)
  }

  /** `new CLIManager(options)`. */
  function Configure(o: ManagerOptions): Config {
    Config(StoredField(o.pythonPath, "python3"), StoredField(o.cliModule, "touchline_cli.main"), o.onMessage, o.onError)
  }

  /** The manager's fields. `exitWaiters` counts the `once('exit')` callbacks
      `cleanup()` registered on the current process; `killTimers` holds, in
      arming order, the handle of the process each pending force-kill timer
      was armed for. */
  datatype Manager = Manager(
    proc: Option<nat>,
    running: bool,
    protocol: Protocol.Handler,
    config: Config,
    exitWaiters: nat,
    killTimers: seq<nat>)

  /** A new manager: no process, not running, empty buffer. */
  function New(o: ManagerOptions): (m: Manager)
    ensures m.proc.None? && !m.running && m.protocol == Protocol.Initial && m.exitWaiters == 0 && m.killTimers == []
  {
    Manager(None, false, Protocol.Initial, Configure(o), 0, [])
  }

  /** The delay of the force-kill timer, in milliseconds. */
  const ForceKillMs: int := 5000

  datatype Event =
    | Initialize(env: CliPaths.AppEnv, cliFound: bool, handle: nat)  // initialize(), with the fs.existsSync answer and the spawned process
    | Stdout(chunk: string)                                          // a chunk of the current process's stdout
    | WorkerError(message: string)                                   // the process 'error' event
    | WorkerExit                                                     // the current process exits
    | SendMessage(payload: Json)                                     // sendMessage(message)
    | KillTimerFires                                                 // the oldest pending force-kill timer expires
    | Cleanup                                                        // cleanup()

  /** `isRunning` is set exactly while there is a current process, and exit
      callbacks are only ever registered on a current process. */
  predicate Inv(m: Manager) {
    (m.running <==> m.proc.Some?) && (m.exitWaiters > 0 ==> m.proc.Some?)
  }

  /** `isActive()`. */
  function IsActive(m: Manager): bool {
    m.running
  }

  /** `initialize()`: refused while running; a missing executable rejects with
      the path it looked at; otherwise the process is spawned, the manager is
      running and the start resolves at once. The protocol buffer is kept. */
  function InitializeStep(m: Manager, env: CliPaths.AppEnv, found: bool, h: nat): (out: Out<Manager>)
    ensures m.running ==> out == Out(m, [StartSettled(Rejected(Message("CLI process already running")))])
    ensures !m.running && !found ==>
              out == Out(m, [StartSettled(Rejected(Message(CliPaths.ResolveManagerCli(env, found).error)))])
    ensures !m.running && found ==>
              && out.state == m.(proc := Some(h), running := true)
              && out.effects == [Spawned(h, CliPaths.Render(CliPaths.ManagerCliPath(env), env.platform)),
                                 StartSettled(Fulfilled(None))]
  {
    if m.running then Out(m, [StartSettled(Rejected(Message("CLI process already running")))])
    else
      match CliPaths.ResolveManagerCli(env, found)
      case Failure(err) => Out(m, [StartSettled(Rejected(Message(err)))])
      case Success(p) =>
        Out(m.(proc := Some(h), running := true),
            [Spawned(h, CliPaths.Render(p, env.platform)), StartSettled(Fulfilled(None))])
  }

  /** Every message, in order, handed to `onMessage`. */
  function DeliverAll(ms: seq<Json>): (es: seq<Effect>)
    ensures |es| == |ms|
    ensures forall i :: 0 <= i < |ms| ==> es[i] == Delivered(ms[i])
  {
    if |ms| == 0 then [] else [Delivered(ms[0])] + DeliverAll(ms[1..])
  }

  /** A stdout chunk: the protocol handler decodes the complete lines, and
      each message is passed to `onMessage` when one was given. */
  function OnStdout(c: JsonCodec, m: Manager, chunk: string): (out: Out<Manager>)
    ensures out.state == m.(protocol := Protocol.ProcessData(c, m.protocol, chunk).handler)
    ensures m.config.onMessage ==> out.effects == DeliverAll(Protocol.ProcessData(c, m.protocol, chunk).messages)
    ensures !m.config.onMessage ==> out.effects == []
  {
    var r := Protocol.ProcessData(c, m.protocol, chunk);
    Out(m.(protocol := r.handler), if m.config.onMessage then DeliverAll(r.messages) else [])
  }

  /** The 'error' event: reported to `onError` when given. The start promise
      it rejects has already resolved, and the manager stays running. */
  function OnError(m: Manager, message: string): (out: Out<Manager>)
    ensures out.state == m
    ensures out.effects == (if m.config.onError then [ErrorReported(message)] else [])
  {
    Out(m, if m.config.onError then [ErrorReported(message)] else [])
  }

  /** The current process exiting: the listener `initialize()` registered
      clears `isRunning` and the process; then each exit callback `cleanup()`
      registered does the same, clears the protocol buffer and resolves its
      cleanup. Without a cleanup in progress the buffer is kept. */
  function OnExit(m: Manager): (out: Out<Manager>)
    ensures out.state.proc.None? && !out.state.running && out.state.exitWaiters == 0
    ensures out.state.killTimers == m.killTimers && out.state.config == m.config
    ensures m.exitWaiters == 0 ==> out == Out(m.(proc := None, running := false), [])
    ensures m.exitWaiters > 0 ==> out.state.protocol == Protocol.Initial
    ensures out.effects == seq(m.exitWaiters, _ => CleanupDone)
  {
    if m.exitWaiters == 0 then Out(m.(proc := None, running := false), [])
    else
      Out(m.(proc := None, running := false, protocol := Protocol.ClearBuffer(m.protocol), exitWaiters := 0),
          seq(m.exitWaiters, _ => CleanupDone))
  }

  /** `sendMessage(message)`: refused unless running with a process (whose
      stdin is always piped); otherwise the serialized message is written. */
  function SendMessageStep(c: JsonCodec, m: Manager, message: Json): (out: Out<Manager>)
    ensures out.state == m
    ensures !m.running || m.proc.None? ==> out.effects == [Refused(Message("CLI process not running"))]
    ensures m.running && m.proc.Some? ==> out.effects == [Write(Protocol.SerializeMessage(c, message))]
  {
    if !m.running || m.proc.None? then Out(m, [Refused(Message("CLI process not running"))])
    else Out(m, [Write(Protocol.SerializeMessage(c, message))])
  }

  /** `cleanup()`: without a process it resolves at once; with one it waits
      for the exit, sends SIGTERM and arms the 5 s force-kill timer. */
  function CleanupStep(m: Manager): (out: Out<Manager>)
    ensures m.proc.None? ==> out == Out(m, [CleanupDone])
    ensures m.proc.Some? ==>
              && out.state == m.(exitWaiters := m.exitWaiters + 1, killTimers := m.killTimers + [m.proc.value])
              && out.effects == [Killed(m.proc.value, SIGTERM), Armed(ForceKill, ForceKillMs)]
  {
    match m.proc
    case None => Out(m, [CleanupDone])
    case Some(h) =>
      Out(m.(exitWaiters := m.exitWaiters + 1, killTimers := m.killTimers + [h]),
          [Killed(h, SIGTERM), Armed(ForceKill, ForceKillMs)])
  }

  /** The force-kill timer as written: it sends SIGKILL to whatever process is
      current when it fires, which need not be the one it was armed for. */
  function FireKillTimer(m: Manager): (out: Out<Manager>)
    ensures |m.killTimers| == 0 ==> out == Out(m, [])
    ensures |m.killTimers| > 0 ==> out.state == m.(killTimers := m.killTimers[1..])
    ensures |m.killTimers| > 0 ==> out.effects == (if m.proc.Some? then [Killed(m.proc.value, SIGKILL)] else [])
  {
    if |m.killTimers| == 0 then Out(m, [])
    else
      Out(m.(killTimers := m.killTimers[1..]), match m.proc case Some(h) => [Killed(h, SIGKILL)] case None => [])
  }

  /** One event, as the code is written. */
  function Step(c: JsonCodec, m: Manager, e: Event): Out<Manager> {
    match e
    case Initialize(env, found, h) => InitializeStep(m, env, found, h)
    case Stdout(chunk) => OnStdout(c, m, chunk)
    case WorkerError(message) => OnError(m, message)
    case WorkerExit => OnExit(m)
    case SendMessage(payload) => SendMessageStep(c, m, payload)
    case KillTimerFires => FireKillTimer(m)
    case Cleanup => CleanupStep(m)
  }

  /** A run of events as the code is written. */
  function Run(c: JsonCodec, m: Manager, es: seq<Event>): Out<Manager>
    decreases |es|
  {
    if |es| == 0 then Out(m, [])
    else
      var o1 := Step(c, m, es[0]);
      var o2 := Run(c, o1.state, es[1..]);
      Out(o2.state, o1.effects + o2.effects)
  }

  // ---------------------------------------------------------------------
  // Corrected lifecycle
  // ---------------------------------------------------------------------

  /** The force-kill timer as evidently intended: it kills the process it was
      armed for, and only while that process is still current. */
  function FireKillTimerFixed(m: Manager): (out: Out<Manager>)
    ensures |m.killTimers| == 0 ==> out == Out(m, [])
    ensures |m.killTimers| > 0 ==> out.state == m.(killTimers := m.killTimers[1..])
    ensures |m.killTimers| > 0 ==>
              out.effects == (if m.proc == Some(m.killTimers[0]) then [Killed(m.killTimers[0], SIGKILL)] else [])
  {
    if |m.killTimers| == 0 then Out(m, [])
    else if m.proc == Some(m.killTimers[0]) then Out(m.(killTimers := m.killTimers[1..]), [Killed(m.killTimers[0], SIGKILL)])
    else Out(m.(killTimers := m.killTimers[1..]), [])
  }

  /** The exit as evidently intended: a process that exits outside `cleanup()`
      leaves no partial line behind for its successor either. */
  function OnExitFixed(m: Manager): (out: Out<Manager>)
    ensures out.state.protocol == Protocol.Initial
    ensures out.state == OnExit(m).state.(protocol := Protocol.Initial)
    ensures out.effects == OnExit(m).effects
  {
    var o := OnExit(m);
    Out(o.state.(protocol := Protocol.ClearBuffer(o.state.protocol)), o.effects)
  }

  /** One event with both corrections. */
  function StepFixed(c: JsonCodec, m: Manager, e: Event): Out<Manager> {
    match e
    case WorkerExit => OnExitFixed(m)
    case KillTimerFires => FireKillTimerFixed(m)
    case _ => Step(c, m, e)
  }

  /** A run of events with both corrections. */
  function RunFixed(c: JsonCodec, m: Manager, es: seq<Event>): Out<Manager>
    decreases |es|
  {
    if |es| == 0 then Out(m, [])
    else
      var o1 := StepFixed(c, m, es[0]);
      var o2 := RunFixed(c, o1.state, es[1..]);
      Out(o2.state, o1.effects + o2.effects)
  }

  // ---------------------------------------------------------------------
  // Properties
  // ---------------------------------------------------------------------

  /** Every event keeps `isActive()` equal to having a current process. */
  lemma StepKeepsInv(c: JsonCodec, m: Manager, e: Event)
    requires Inv(m)
    ensures Inv(Step(c, m, e).state) && Inv(StepFixed(c, m, e).state)
  {
  }

  /** Over any run, `isActive()` is true exactly when there is a process. */
  lemma {:induction false} ActiveIffProcess(c: JsonCodec, m: Manager, es: seq<Event>)
    requires Inv(m)
    ensures IsActive(Run(c, m, es).state) <==> Run(c, m, es).state.proc.Some?
    ensures Inv(Run(c, m, es).state)
    decreases |es|
  {
    if |es| > 0 {
      StepKeepsInv(c, m, es[0]);
      ActiveIffProcess(c, Step(c, m, es[0]).state, es[1..]);
    }
  }

  /** The start guard: while a process runs, a second `initialize()` is
      rejected and spawns nothing. */
  lemma InitializeOnlyOnce(m: Manager, env: CliPaths.AppEnv, found: bool, h: nat, h2: nat)
    requires !m.running && found
    ensures var o1 := InitializeStep(m, env, found, h);
            var o2 := InitializeStep(o1.state, env, found, h2);
            && IsActive(o1.state)
            && o2 == Out(o1.state, [StartSettled(Rejected(Message("CLI process already running")))])
  {
  }

  /** `sendMessage` writes exactly when the manager is active (under the
      invariant), and what it writes is one line the worker decodes back to
      the message. */
  lemma SendMessageGate(c: JsonCodec, m: Manager, message: Json)
    requires Inv(m)
    ensures var es := SendMessageStep(c, m, message).effects;
            && (IsActive(m) <==> es[0].Write?)
            && (es[0].Write? && Lawful(c) && OnWire(message) ==>
                  Protocol.ProcessData(c, Protocol.Initial, es[0].text).messages == [message])
  {
    if Lawful(c) && OnWire(message) {
      Protocol.RoundTrip(c, message);
    }
  }

  /** Messages reach `onMessage` exactly as the protocol handler decodes them:
      two chunks deliver what their concatenation delivers, in the same order. */
  lemma DeliveryChunking(c: JsonCodec, m: Manager, a: string, b: string)
    requires m.config.onMessage
    ensures var o1 := OnStdout(c, m, a);
            var o2 := OnStdout(c, o1.state, b);
            OnStdout(c, m, a + b) == Out(o2.state, o1.effects + o2.effects)
  {
    var r1 := Protocol.ProcessData(c, m.protocol, a);
    var r2 := Protocol.ProcessData(c, r1.handler, b);
    Protocol.ChunkingInvariance(c, m.protocol, a, b);
    DeliverAllAppend(r1.messages, r2.messages);
  }

  lemma DeliverAllAppend(a: seq<Json>, b: seq<Json>)
    ensures DeliverAll(a + b) == DeliverAll(a) + DeliverAll(b)
  {
  }

  /** Cleanup without a process resolves at once and changes nothing. */
  lemma CleanupIdle(m: Manager)
    requires m.proc.None?
    ensures CleanupStep(m) == Out(m, [CleanupDone])
  {
  }

  /** Shutdown escalation: SIGTERM at once; if the process has not exited when
      the timer fires, SIGKILL to the same process. If it exits first, its
      cleanup resolves, the buffer is cleared, and the timer kills nothing. */
  lemma CleanupEscalates(m: Manager)
    requires Inv(m) && m.proc.Some? && m.killTimers == []
    ensures var h := m.proc.value;
            var o1 := CleanupStep(m);
            var late := FireKillTimer(o1.state);
            var exited := OnExit(o1.state);
            var after := FireKillTimer(exited.state);
            && o1.effects[0] == Killed(h, SIGTERM)
            && late.effects == [Killed(h, SIGKILL)]
            && exited.effects[|exited.effects| - 1] == CleanupDone
            && exited.state.protocol == Protocol.Initial && !IsActive(exited.state)
            && after.effects == []
  {
  }

  // ---------------------------------------------------------------------
  // Findings
  // ---------------------------------------------------------------------

  /** As written, the force-kill timer of a cleanup outlives its process: when
      the old process exits within 5 s and a new one is started, the timer
      sends SIGKILL to the new process. */
  lemma StaleKillTimerHitsReplacement(c: JsonCodec, m: Manager, env: CliPaths.AppEnv, h1: nat, h2: nat)
    requires m.proc == Some(h1) && m.running && m.killTimers == [] && h1 != h2
    ensures var r := Run(c, m, [Cleanup, WorkerExit, Initialize(env, true, h2), KillTimerFires]);
            && r.state.proc == Some(h2)
            && Killed(h2, SIGKILL) in r.effects
  {
    var s1 := CleanupStep(m);
    var s2 := OnExit(s1.state);
    var s3 := InitializeStep(s2.state, env, true, h2);
    var s4 := FireKillTimer(s3.state);
    assert s4.effects == [Killed(h2, SIGKILL)];
    var r4 := Run(c, s3.state, [KillTimerFires]);
    assert [KillTimerFires][1..] == [];
    assert r4 == Out(s4.state, s4.effects);
    var r3 := Run(c, s2.state, [Initialize(env, true, h2), KillTimerFires]);
    assert [Initialize(env, true, h2), KillTimerFires][1..] == [KillTimerFires];
    assert r3 == Out(r4.state, s3.effects + r4.effects);
    var r2 := Run(c, s1.state, [WorkerExit, Initialize(env, true, h2), KillTimerFires]);
    assert [WorkerExit, Initialize(env, true, h2), KillTimerFires][1..] == [Initialize(env, true, h2), KillTimerFires];
    assert r2 == Out(r3.state, s2.effects + r3.effects);
    var es := [Cleanup, WorkerExit, Initialize(env, true, h2), KillTimerFires];
    assert es[1..] == [WorkerExit, Initialize(env, true, h2), KillTimerFires];
    assert Run(c, m, es) == Out(r2.state, s1.effects + r2.effects);
    assert Killed(h2, SIGKILL) in r4.effects;
  }

  /** A corrected step sends SIGKILL only when a force-kill timer fires, and
      only to the process that timer was armed for. */
  lemma FixedStepKills(c: JsonCodec, m: Manager, e: Event, h: nat)
    requires Killed(h, SIGKILL) in StepFixed(c, m, e).effects
    ensures e == KillTimerFires && |m.killTimers| > 0 && h == m.killTimers[0]
  {
  }

  /** A step arms a force-kill timer only in `cleanup()`, and only for the
      current process. */
  lemma FixedStepArms(c: JsonCodec, m: Manager, e: Event, h: nat)
    requires h in StepFixed(c, m, e).state.killTimers && h !in m.killTimers
    ensures e == Cleanup && m.proc == Some(h)
  {
  }

  /** Corrected: a force-kill timer only ever signals the process it was armed
      for. Over any run, every SIGKILL targets a process some cleanup armed a
      timer for, and never a process started after that one exited. */
  lemma {:induction false} FixedKillTargetsOwnProcess(c: JsonCodec, m: Manager, es: seq<Event>)
    ensures forall h :: Killed(h, SIGKILL) in RunFixed(c, m, es).effects ==>
              h in m.killTimers || exists i :: 0 <= i < |es| && es[i] == Cleanup && KilledTarget(c, m, es, i, h)
    decreases |es|
  {
    if |es| > 0 {
      var o1 := StepFixed(c, m, es[0]);
      var o2 := RunFixed(c, o1.state, es[1..]);
      FixedKillTargetsOwnProcess(c, o1.state, es[1..]);
      forall h | Killed(h, SIGKILL) in RunFixed(c, m, es).effects
        ensures h in m.killTimers || exists i :: 0 <= i < |es| && es[i] == Cleanup && KilledTarget(c, m, es, i, h)
      {
        if Killed(h, SIGKILL) in o1.effects {
          FixedStepKills(c, m, es[0], h);
        } else {
          assert Killed(h, SIGKILL) in o2.effects;
          if h in o1.state.killTimers {
            if h !in m.killTimers {
              FixedStepArms(c, m, es[0], h);
              assert es[..0] == [];
            }
          } else {
            var i :| 0 <= i < |es[1..]| && es[1..][i] == Cleanup && KilledTarget(c, o1.state, es[1..], i, h);
            KilledTargetShift(c, m, es, i, h);
          }
        }
      }
    }
  }

  /** Whether, in the run `es` from `m`, the cleanup at position `i` was called
      while `h` was the current process. */
  predicate KilledTarget(c: JsonCodec, m: Manager, es: seq<Event>, i: nat, h: nat)
    requires i < |es|
  {
    RunFixed(c, m, es[..i]).state.proc == Some(h)
  }

  lemma KilledTargetShift(c: JsonCodec, m: Manager, es: seq<Event>, i: nat, h: nat)
    requires 0 < |es| && i < |es| - 1
    requires KilledTarget(c, StepFixed(c, m, es[0]).state, es[1..], i, h)
    ensures KilledTarget(c, m, es, i + 1, h)
  {
    assert es[..i + 1][1..] == es[1..][..i];
  }

  /** Corrected: in the scenario above, the timer armed for the old process
      does not touch the new one. */
  lemma FixedKillTimerSparesReplacement(c: JsonCodec, m: Manager, env: CliPaths.AppEnv, h1: nat, h2: nat)
    requires m.proc == Some(h1) && m.running && m.killTimers == [] && h1 != h2
    ensures var r := RunFixed(c, m, [Cleanup, WorkerExit, Initialize(env, true, h2), KillTimerFires]);
            && r.state.proc == Some(h2)
            && Killed(h2, SIGKILL) !in r.effects
  {
    var s1 := CleanupStep(m);
    var s2 := OnExitFixed(s1.state);
    var s3 := InitializeStep(s2.state, env, true, h2);
    var s4 := FireKillTimerFixed(s3.state);
    assert s4.effects == [];
    var r4 := RunFixed(c, s3.state, [KillTimerFires]);
    assert [KillTimerFires][1..] == [];
    assert r4 == Out(s4.state, s4.effects);
    var r3 := RunFixed(c, s2.state, [Initialize(env, true, h2), KillTimerFires]);
    assert [Initialize(env, true, h2), KillTimerFires][1..] == [KillTimerFires];
    assert r3 == Out(r4.state, s3.effects + r4.effects);
    var r2 := RunFixed(c, s1.state, [WorkerExit, Initialize(env, true, h2), KillTimerFires]);
    assert [WorkerExit, Initialize(env, true, h2), KillTimerFires][1..] == [Initialize(env, true, h2), KillTimerFires];
    assert r2 == Out(r3.state, s2.effects + r3.effects);
    var es := [Cleanup, WorkerExit, Initialize(env, true, h2), KillTimerFires];
    assert es[1..] == [WorkerExit, Initialize(env, true, h2), KillTimerFires];
    assert RunFixed(c, m, es) == Out(r2.state, s1.effects + r2.effects);
    assert s1.effects + r2.effects == s1.effects + (s2.effects + s3.effects);
    assert Killed(h2, SIGKILL) !in s2.effects by {
      assert forall k :: 0 <= k < |s2.effects| ==> s2.effects[k] == CleanupDone;
    }
    assert Killed(h2, SIGKILL) !in s2.effects + s3.effects;
  }

  /** As written, a process that dies in the middle of a line leaves that
      fragment in the buffer, and the first line of the next process is
      glued onto it before it is parsed. */
  lemma StaleFragmentCorruptsRestart(c: JsonCodec, m: Manager, env: CliPaths.AppEnv, h2: nat, fragment: string, msg: Json)
    requires Lawful(c) && m.protocol == Protocol.Initial && m.exitWaiters == 0 && m.config.onMessage
    requires fragment != [] && NoNewline(fragment)
    ensures var s1 := OnStdout(c, m, fragment);
            var s2 := OnExit(s1.state);
            var s3 := InitializeStep(s2.state, env, true, h2);
            var r := Protocol.ProcessData(c, s3.state.protocol, Protocol.SerializeMessage(c, msg));
            && s1.effects == []
            && r.lines == [fragment + c.stringify(msg)]
            && OnStdout(c, s3.state, Protocol.SerializeMessage(c, msg)).effects == DeliverAll(Protocol.DecodeLine(c, fragment + c.stringify(msg)))
  {
    var s1 := OnStdout(c, m, fragment);
    assert "" + fragment == fragment;
    CutNoLine(fragment);
    assert s1.state.protocol.buffer == fragment;
    CutGlued(fragment, c.stringify(msg));
  }

  /** Corrected: after any exit, a restarted process's first message is
      delivered on its own, whatever the old process left unfinished. */
  lemma FixedRestartDeliversFirstMessage(c: JsonCodec, m: Manager, env: CliPaths.AppEnv, h2: nat, msg: Json)
    requires Lawful(c) && OnWire(msg) && m.config.onMessage
    ensures var s2 := OnExitFixed(m);
            var s3 := StepFixed(c, s2.state, Initialize(env, true, h2));
            StepFixed(c, s3.state, Stdout(Protocol.SerializeMessage(c, msg))).effects == [Delivered(msg)]
  {
    Protocol.RoundTrip(c, msg);
  }

  /** The constructor's defaults are overridden by any field that is present:
      an explicit empty string or `undefined` is kept. */
  lemma SpreadOverridesDefaults(o: ManagerOptions)
    ensures o.pythonPath == Given("") ==> Configure(o).pythonPath == Some("")
    ensures o.cliModule == Undefined ==> Configure(o).cliModule == None
    ensures o.pythonPath == Missing ==> Configure(o).pythonPath == Some("python3")
  {
  }
}
