/**
  What the host side of the worker protocol does to the outside world, as
  data: text written to the worker's standard input, timers armed, promises
  settled, signals sent, callbacks invoked. Every step function of the model
  returns its new state together with the effects it performed, in order.
 */
module Effects {
  import opened Wrappers
  import opened Json

  /** The message of a rejection's `Error`. `Converted` stands for
      `new Error(v)` with a value that is not a string, whose message is the
      JavaScript string conversion of `v`. `MissingCli(path)` is the error the
      main-process client rejects its start with when no executable exists at
      `path`; `MainProcess.NotFoundText` spells out its message. */
  datatype Reason = Message(text: string) | Converted(value: Json) | MissingCli(path: string)

  /** How a promise settles. */
  datatype Outcome = Fulfilled(data: Option<Json>) | Rejected(reason: Reason)

  /** The timers the layer arms with `setTimeout`. */
  datatype Timer = RequestTimeout(id: string) | ReadyTimeout | ForceKill

  /** The signals sent to the worker; `kill()` with no argument sends SIGTERM. */
  datatype Signal = SIGTERM | SIGKILL

  datatype Effect =
    | Spawned(worker: nat, command: string)   // the worker process started from executable `command`
    | Write(text: string)                     // text written to the worker's stdin
    | Armed(timer: Timer, delay: int)         // setTimeout(callback, delay)
    | Settled(id: string, outcome: Outcome)   // the promise of request `id` settles
    | Refused(reason: Reason)                 // the call throws before touching the worker
    | StartSettled(outcome: Outcome)          // the promise of initialize() settles
    | Killed(worker: nat, signal: Signal)     // a signal sent to worker `worker`
    | Invoked(handler: nat, event: Json)      // an event handler is called
    | Delivered(message: Json)                // the manager's onMessage is called
    | ErrorReported(error: string)            // the manager's onError is called
    | CleanupDone                             // the promise of cleanup() resolves

  /** A step's result: the next state and the effects, in the order performed. */
  datatype Out<S> = Out(state: S, effects: seq<Effect>)

  /** Handling inputs one after another with `step`: the last state and every
      step's effects, in order. */
  function Fold<S, M>(step: (S, M) -> Out<S>, s: S, ms: seq<M>): Out<S>
    decreases |ms|
  {
    if |ms| == 0 then Out(s, [])
    else
      var o1 := step(s, ms[0]);
      var o2 := Fold(step, o1.state, ms[1..]);
      Out(o2.state, o1.effects + o2.effects)
  }

  /** Folding over `a + b` is folding over `a` and then over `b` from the state
      `a` left. */
  lemma {:induction false} FoldAppend<S, M>(step: (S, M) -> Out<S>, s: S, a: seq<M>, b: seq<M>)
    ensures var o1 := Fold(step, s, a);
            var o2 := Fold(step, o1.state, b);
            Fold(step, s, a + b) == Out(o2.state, o1.effects + o2.effects)
    decreases |a|
  {
    if |a| == 0 {
      assert a + b == b;
    } else {
      assert (a + b)[1..] == a[1..] + b;
      FoldAppend(step, step(s, a[0]).state, a[1..], b);
    }
  }

  /** The request ids settled by a run of effects, in order. */
  function SettledIds(es: seq<Effect>): (ids: seq<string>)
    ensures |ids| <= |es|
  {
    if |es| == 0 then []
    else (if es[0].Settled? then [es[0].id] else []) + SettledIds(es[1..])
  }

  /** Effects that settle no request have no settled ids. */
  lemma {:induction false} NothingSettled(es: seq<Effect>)
    requires forall i :: 0 <= i < |es| ==> !es[i].Settled?
    ensures SettledIds(es) == []
    decreases |es|
  {
    if |es| > 0 {
      NothingSettled(es[1..]);
    }
  }

  /** How many times a run of effects settles the start promise. */
  function StartSettlements(es: seq<Effect>): (n: nat)
    ensures n <= |es|
  {
    if |es| == 0 then 0
    else (if es[0].StartSettled? then 1 else 0) + StartSettlements(es[1..])
  }

  lemma {:induction false} StartSettlementsAppend(a: seq<Effect>, b: seq<Effect>)
    ensures StartSettlements(a + b) == StartSettlements(a) + StartSettlements(b)
    decreases |a|
  {
    if |a| == 0 {
      assert a + b == b;
    } else {
      assert (a + b)[1..] == a[1..] + b;
      StartSettlementsAppend(a[1..], b);
    }
  }

  /** No id occurs twice. */
  predicate Distinct(xs: seq<string>) {
    forall i, j :: 0 <= i < j < |xs| ==> xs[i] != xs[j]
  }

  lemma {:induction false} SettledIdsAppend(a: seq<Effect>, b: seq<Effect>)
    ensures SettledIds(a + b) == SettledIds(a) + SettledIds(b)
    decreases |a|
  {
    if |a| == 0 {
      assert a + b == b;
    } else {
      var head := if a[0].Settled? then [a[0].id] else [];
      assert (a + b)[0] == a[0];
      assert (a + b)[1..] == a[1..] + b;
      assert SettledIds(a + b) == head + SettledIds(a[1..] + b);
      SettledIdsAppend(a[1..], b);
      AppendAssoc(head, SettledIds(a[1..]), SettledIds(b));
    }
  }

  lemma AppendAssoc<T>(x: seq<T>, y: seq<T>, z: seq<T>)
    ensures x + (y + z) == x + y + z
  {
  }

  /** Two id sequences without repeats and without common ids concatenate to one
      without repeats. */
  lemma DistinctAppend(a: seq<string>, b: seq<string>)
    requires Distinct(a) && Distinct(b)
    requires forall x :: x in a ==> x !in b
    ensures Distinct(a + b)
  {
    forall i, j | 0 <= i < j < |a + b|
      ensures (a + b)[i] != (a + b)[j]
    {
      if j < |a| {
        assert (a + b)[i] == a[i] && (a + b)[j] == a[j];
      } else if i < |a| {
        assert (a + b)[i] == a[i] && (a + b)[j] == b[j - |a|];
        assert a[i] in a;
      } else {
        assert (a + b)[i] == b[i - |a|] && (a + b)[j] == b[j - |a|];
      }
    }
  }

  /** The converse: the parts of a sequence without repeats have none, and share
      no id. */
  lemma DistinctParts(a: seq<string>, b: seq<string>)
    requires Distinct(a + b)
    ensures Distinct(a) && Distinct(b)
    ensures forall x :: x in a ==> x !in b
  {
    forall i, j | 0 <= i < j < |b|
      ensures b[i] != b[j]
    {
      assert (a + b)[|a| + i] == b[i] && (a + b)[|a| + j] == b[j];
    }
    forall i, j | 0 <= i < j < |a|
      ensures a[i] != a[j]
    {
      assert (a + b)[i] == a[i] && (a + b)[j] == a[j];
    }
    forall i, j | 0 <= i < |a| && 0 <= j < |b|
      ensures a[i] != b[j]
    {
      assert (a + b)[i] == a[i] && (a + b)[|a| + j] == b[j];
    }
  }
}
