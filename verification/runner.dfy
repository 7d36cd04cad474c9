/**
 `ScraperRunner.run`: the steps run in order inside `try`; an `Exception`
 from a step is caught, handed to every error hook in order and re-raised;
 `finally` quits the driver. Step bodies, hooks and `quit` are opaque: what
 each one did (returned, raised an `Exception`, raised a bare
 `BaseException`) is an input, and the run is the trace of calls the
 runner makes plus how `run()` ends.
 */
module Runner {
  import opened Base
  import opened Notifiers
  import opened ErrorHooks

  /** A value stored in the shared state; the runner never looks inside. */
  datatype StateValue = StateValue(id: nat)

  /** The shared `Dict[str, Any]` every step receives. */
  type State = map<string, StateValue>

  /** A step's function, identified but not interpreted. */
  datatype Action = Action(id: nat)

  /** A `(name, func)` pair of the step list. */
  datatype Step = Step(name: string, action: Action)

  /** The bound method `self._notify_callback`, which carries the runner's notifiers. */
  datatype Callback = NotifyCallback(notifiers: seq<Notifier>)

  /** The fields `ScraperRunner.__init__` stores. */
  datatype ScraperRunner = ScraperRunner(
    driver: Driver,
    steps: seq<Step>,
    errorHooks: seq<ErrorHook>,
    state: State,
    notifiers: seq<Notifier>)

  /** What calling a step's function did. */
  datatype StepOutcome =
    | Completes
    | RaisesException(error: Exc)  // an instance of `Exception`, which `except Exception` catches
    | RaisesBase(error: Exc)       // a `BaseException` that is not an `Exception` (KeyboardInterrupt, SystemExit)

  /** A call the runner makes, with the arguments it passes. */
  datatype Event =
    | StepRan(index: nat, name: string, action: Action, driver: Driver, state: State, callback: Callback)
    | HookCalled(index: nat, hook: ErrorHook, error: Exc, driver: Driver, notifiers: seq<Notifier>)
    | Quit(driver: Driver)

  /** How `run()` ends. */
  datatype RunResult = Returned | Raised(error: Exc)

  datatype RunOutcome = RunOutcome(trace: seq<Event>, result: RunResult)

  /** A step's outcome seen as a call that may raise, whichever kind of exception it raised. */
  function AsOutcome(s: StepOutcome): (o: Outcome)
    ensures o.Returns? <==> s.Completes?
  {
    if s.Completes? then Returns else Raises(s.error)
  }

  /** Index of the first step that raises, or `|outs|` when every step completes. */
  function FirstFailure(outs: seq<StepOutcome>): (k: nat)
    ensures k <= |outs|
    ensures forall i :: 0 <= i < k ==> outs[i].Completes?
    ensures k < |outs| ==> !outs[k].Completes?
  {
    var calls := seq(|outs|, i requires 0 <= i < |outs| => AsOutcome(outs[i]));
    var k := FirstRaise(calls);
    assert forall i :: 0 <= i < k ==> calls[i] == AsOutcome(outs[i]) && calls[i].Returns?;
    k
  }

  /** `func(self.driver, self.state, self._notify_callback)` for step `i`. */
  function StepEvent(r: ScraperRunner, i: nat): Event
    requires i < |r.steps|
  {
    StepRan(i, r.steps[i].name, r.steps[i].action, r.driver, r.state, NotifyCallback(r.notifiers))
  }

  /** `hook.handle(e, self.driver, self.notifiers)` for hook `j`. */
  function HookEvent(r: ScraperRunner, e: Exc, j: nat): Event
    requires j < |r.errorHooks|
  {
    HookCalled(j, r.errorHooks[j], e, r.driver, r.notifiers)
  }

  /** The first `n` steps, called in list order. */
  function StepEvents(r: ScraperRunner, n: nat): (evs: seq<Event>)
    requires n <= |r.steps|
  {
    seq(n, i requires 0 <= i < n => StepEvent(r, i))
  }

  /** The first `n` hooks, called in registration order with `e`. */
  function HookEvents(r: ScraperRunner, e: Exc, n: nat): (evs: seq<Event>)
    requires n <= |r.errorHooks|
  {
    seq(n, j requires 0 <= j < n => HookEvent(r, e, j))
  }

  /** The state of the run when the `finally` clause is entered: what happened, and what is propagating. */
  datatype Flow = Flow(events: seq<Event>, pending: Option<Exc>)

  /**
   The `try` and `except Exception` clauses, described by where the run
   stops rather than by the loops: steps up to the first failing one; then
   for an `Exception`, the hooks up to the first raising one, and the
   exception that leaves the clause (the hook's if one raised, otherwise
   the step's own, re-raised by the bare `raise`).
   */
  function TryExcept(r: ScraperRunner, outs: seq<StepOutcome>, hookOuts: seq<Outcome>): (f: Flow)
    requires |outs| == |r.steps| && |hookOuts| == |r.errorHooks|
    ensures f.pending.None? <==> forall i :: 0 <= i < |outs| ==> outs[i].Completes?
    ensures forall t :: 0 <= t < |f.events| ==> !f.events[t].Quit?
    ensures var k := FirstFailure(outs);
            var n := if k < |outs| then k + 1 else k;
            && n <= |f.events| && f.events[..n] == StepEvents(r, n)
            && (forall t :: 0 <= t < |f.events| && f.events[t].StepRan? ==> f.events[t].index <= k)
    ensures var k := FirstFailure(outs);
            k < |outs| && outs[k].RaisesBase? ==>
              f.pending == Some(outs[k].error) && forall t :: 0 <= t < |f.events| ==> !f.events[t].HookCalled?
    ensures var k := FirstFailure(outs);
            k < |outs| && outs[k].RaisesException? ==>
              && (forall t :: 0 <= t < |f.events| && f.events[t].HookCalled? ==> f.events[t].error == outs[k].error)
              && ((forall j :: 0 <= j < |hookOuts| ==> hookOuts[j].Returns?) ==> f.pending == Some(outs[k].error))
              && (FirstRaise(hookOuts) < |hookOuts| ==> f.pending == Some(hookOuts[FirstRaise(hookOuts)].error))
  {
    var k := FirstFailure(outs);
    if k == |outs| then
      Flow(StepEvents(r, k), None)
    else if outs[k].RaisesBase? then
      Flow(StepEvents(r, k + 1), Some(outs[k].error))
    else
      var e := outs[k].error;
      var escaped := Propagated(hookOuts);
      var steps, hooks := StepEvents(r, k + 1), HookEvents(r, e, CallsMade(hookOuts));
      assert forall t :: 0 <= t < |hooks| ==> hooks[t].HookCalled? && hooks[t].error == e;
      assert (steps + hooks)[..k + 1] == steps;
      Flow(steps + hooks, Some(if escaped.Raises? then escaped.error else e))
  }

  /**
   The `finally` clause: `driver.quit()` runs, and an exception it raises
   replaces whatever was propagating, as Python's `finally` does.
   */
  function Finally(r: ScraperRunner, f: Flow, quit: Outcome): (o: RunOutcome)
    ensures o.trace == f.events + [Quit(r.driver)]
    ensures quit.Raises? ==> o.result == Raised(quit.error)
    ensures quit.Returns? ==> (o.result.Returned? <==> f.pending.None?)
    ensures quit.Returns? && f.pending.Some? ==> o.result == Raised(f.pending.value)
  {
    RunOutcome(f.events + [Quit(r.driver)],
               if quit.Raises? then Raised(quit.error)
               else if f.pending.Some? then Raised(f.pending.value)
               else Returned)
  }

  /**
   `run()` as a whole, given what every step, hook and `quit` does. The
   driver is quit exactly once, as the last call, on every path; `run()`
   returns normally exactly when every step completed and `quit` returned.
   */
  function Run(r: ScraperRunner, outs: seq<StepOutcome>, hookOuts: seq<Outcome>, quit: Outcome): (o: RunOutcome)
    requires |outs| == |r.steps| && |hookOuts| == |r.errorHooks|
    ensures |o.trace| > 0 && o.trace[|o.trace| - 1] == Quit(r.driver)
    ensures forall t :: 0 <= t < |o.trace| - 1 ==> !o.trace[t].Quit?
    ensures quit.Raises? ==> o.result == Raised(quit.error)
    ensures o.result == Returned <==> quit.Returns? && forall i :: 0 <= i < |outs| ==> outs[i].Completes?
  {
    Finally(r, TryExcept(r, outs, hookOuts), quit)
  }

  /**
   The runner's own loops: `for name, func in self.steps`, the
   `except Exception` clause with its loop over the hooks and its bare
   `raise`, and the `finally` clause. It makes exactly the calls, and ends
   exactly as, `Run` describes.
   */
  method Execute(r: ScraperRunner, outs: seq<StepOutcome>, hookOuts: seq<Outcome>, quit: Outcome)
    returns (trace: seq<Event>, result: RunResult)
    requires |outs| == |r.steps| && |hookOuts| == |r.errorHooks|
    ensures RunOutcome(trace, result) == Run(r, outs, hookOuts, quit)
  {
    trace := [];
    var pending: Option<Exc> := None;  // a BaseException leaving the `try` clause
    var caught: Option<Exc> := None;   // the Exception that `except Exception as e` caught
    var i := 0;
    while i < |r.steps| && pending.None? && caught.None?
      invariant 0 <= i <= |r.steps|
      invariant trace == StepEvents(r, i)
      invariant pending.None? && caught.None? ==> forall t :: 0 <= t < i ==> outs[t].Completes?
      invariant pending.Some? || caught.Some? ==> 0 < i && FirstFailure(outs) == i - 1
      invariant pending.Some? ==> caught.None? && outs[i - 1] == RaisesBase(pending.value)
      invariant caught.Some? ==> pending.None? && outs[i - 1] == RaisesException(caught.value)
    {
      trace := trace + [StepEvent(r, i)];
      match outs[i] {
        case Completes =>
        case RaisesException(e) => caught := Some(e);
        case RaisesBase(e) => pending := Some(e);
      }
      i := i + 1;
    }
    if caught.Some? {
      var e := caught.value;
      var steps := trace;
      var j := 0;
      var hookError: Option<Exc> := None;
      while j < |r.errorHooks| && hookError.None?
        invariant 0 <= j <= |r.errorHooks|
        invariant trace == steps + HookEvents(r, e, j)
        invariant hookError.None? ==> forall t :: 0 <= t < j ==> hookOuts[t].Returns?
        invariant hookError.Some? ==> 0 < j && FirstRaise(hookOuts) == j - 1
                                      && hookOuts[j - 1] == Raises(hookError.value)
      {
        trace := trace + [HookEvent(r, e, j)];
        assert HookEvents(r, e, j + 1) == HookEvents(r, e, j) + [HookEvent(r, e, j)];
        if hookOuts[j].Raises? {
          hookError := Some(hookOuts[j].error);
        }
        j := j + 1;
      }
      pending := if hookError.Some? then hookError else Some(e);
    }
    trace := trace + [Quit(r.driver)];
    if quit.Raises? {
      pending := Some(quit.error);
    }
    result := if pending.Some? then Raised(pending.value) else Returned;
  }

  /**
   `self._notify_callback(message)`, the callback every step receives:
   `notify(message)` on each of the runner's notifiers in order, the same
   message each time; a raising notifier ends the loop and its exception
   leaves the callback (inside the step that called it).
   */
  function NotifyAll(cb: Callback, message: string, outs: seq<Outcome>): (f: FanoutResult)
    requires |outs| == |cb.notifiers|
    ensures |f.calls| <= |cb.notifiers|
    ensures forall k :: 0 <= k < |f.calls| ==>
              f.calls[k].index == k && f.calls[k].notifier == cb.notifiers[k] && f.calls[k].message == message
    ensures forall k :: 0 <= k < |f.calls| - 1 ==> outs[k].Returns?
    ensures f.outcome.Returns? <==> |f.calls| == |cb.notifiers| && forall k :: 0 <= k < |outs| ==> outs[k].Returns?
    ensures f.outcome.Raises? ==> 0 < |f.calls| && f.outcome == outs[|f.calls| - 1]
  {
    Fanout(cb.notifiers, message, outs)
  }

  // ---------------------------------------------------------------------------
  // Properties of a run

  /** With no failing step: every step once, in list order, no hook, then quit; `run()` returns. */
  lemma AllStepsComplete(r: ScraperRunner, outs: seq<StepOutcome>, hookOuts: seq<Outcome>, quit: Outcome)
    requires |outs| == |r.steps| && |hookOuts| == |r.errorHooks|
    requires forall i :: 0 <= i < |outs| ==> outs[i].Completes?
    ensures var o := Run(r, outs, hookOuts, quit);
            && |o.trace| == |r.steps| + 1
            && (forall i :: 0 <= i < |r.steps| ==> o.trace[i] == StepEvent(r, i))
            && (forall t :: 0 <= t < |o.trace| ==> !o.trace[t].HookCalled?)
            && (quit.Returns? ==> o.result == Returned)
  {
  }

  /** Steps after the first failing one never run: the step calls are exactly steps `0..k`. */
  lemma StepsStopAtFailure(r: ScraperRunner, outs: seq<StepOutcome>, hookOuts: seq<Outcome>, quit: Outcome, k: nat)
    requires |outs| == |r.steps| && |hookOuts| == |r.errorHooks|
    requires k < |outs| && !outs[k].Completes?
    requires forall i :: 0 <= i < k ==> outs[i].Completes?
    ensures var o := Run(r, outs, hookOuts, quit);
            && o.trace[..k + 1] == StepEvents(r, k + 1)
            && (forall t :: 0 <= t < |o.trace| && o.trace[t].StepRan? ==> o.trace[t].index <= k)
  {
  }

  /**
   A step raising an `Exception` `e` while no hook raises: every hook is
   called once, in registration order, with `e`, the driver and the
   notifiers; then quit; then `e` itself is re-raised, unless quit raises
   and its exception replaces `e`.
   */
  lemma ExceptionReachesEveryHook(r: ScraperRunner, outs: seq<StepOutcome>, hookOuts: seq<Outcome>, quit: Outcome,
                                  k: nat, e: Exc)
    requires |outs| == |r.steps| && |hookOuts| == |r.errorHooks|
    requires k < |outs| && outs[k] == RaisesException(e)
    requires forall i :: 0 <= i < k ==> outs[i].Completes?
    requires forall j :: 0 <= j < |hookOuts| ==> hookOuts[j].Returns?
    ensures var o := Run(r, outs, hookOuts, quit);
            && o.trace == StepEvents(r, k + 1) + HookEvents(r, e, |r.errorHooks|) + [Quit(r.driver)]
            && o.result == (if quit.Raises? then Raised(quit.error) else Raised(e))
  {
  }

  /**
   Hook `j` raising `h`: hooks after `j` are not called, quit still runs,
   and `h` replaces the step's exception as what `run()` raises (itself
   replaced by quit's exception if quit raises).
   */
  lemma RaisingHookStopsDispatch(r: ScraperRunner, outs: seq<StepOutcome>, hookOuts: seq<Outcome>, quit: Outcome,
                                 k: nat, e: Exc, j: nat, h: Exc)
    requires |outs| == |r.steps| && |hookOuts| == |r.errorHooks|
    requires k < |outs| && outs[k] == RaisesException(e)
    requires forall i :: 0 <= i < k ==> outs[i].Completes?
    requires j < |hookOuts| && hookOuts[j] == Raises(h)
    requires forall t :: 0 <= t < j ==> hookOuts[t].Returns?
    ensures var o := Run(r, outs, hookOuts, quit);
            && o.trace == StepEvents(r, k + 1) + HookEvents(r, e, j + 1) + [Quit(r.driver)]
            && o.result == (if quit.Raises? then Raised(quit.error) else Raised(h))
  {
  }

  /**
   A `BaseException` from a step is not caught by `except Exception`: no
   hook is called, but quit still runs and the exception propagates, unless
   quit raises and its exception replaces it.
   */
  lemma BaseExceptionBypassesHooks(r: ScraperRunner, outs: seq<StepOutcome>, hookOuts: seq<Outcome>, quit: Outcome,
                                   k: nat, e: Exc)
    requires |outs| == |r.steps| && |hookOuts| == |r.errorHooks|
    requires k < |outs| && outs[k] == RaisesBase(e)
    requires forall i :: 0 <= i < k ==> outs[i].Completes?
    ensures var o := Run(r, outs, hookOuts, quit);
            && o.trace == StepEvents(r, k + 1) + [Quit(r.driver)]
            && (forall t :: 0 <= t < |o.trace| ==> !o.trace[t].HookCalled?)
            && o.result == (if quit.Raises? then Raised(quit.error) else Raised(e))
  {
  }

  /**
   Every step receives the same driver, state and callback, those of the
   runner; every hook receives the runner's driver and notifiers and the
   exception of the step that failed.
   */
  lemma SameArguments(r: ScraperRunner, outs: seq<StepOutcome>, hookOuts: seq<Outcome>, quit: Outcome)
    requires |outs| == |r.steps| && |hookOuts| == |r.errorHooks|
    ensures var o := Run(r, outs, hookOuts, quit);
            forall t :: 0 <= t < |o.trace| ==>
              && (o.trace[t].StepRan? ==>
                    && o.trace[t].index < |r.steps|
                    && o.trace[t].action == r.steps[o.trace[t].index].action
                    && o.trace[t].driver == r.driver && o.trace[t].state == r.state
                    && o.trace[t].callback == NotifyCallback(r.notifiers))
              && (o.trace[t].HookCalled? ==>
                    && FirstFailure(outs) < |outs|
                    && outs[FirstFailure(outs)] == RaisesException(o.trace[t].error)
                    && o.trace[t].driver == r.driver && o.trace[t].notifiers == r.notifiers)
  {
  }

  /** Quit occurs exactly once in every trace, whatever the steps, hooks and quit do. */
  lemma QuitExactlyOnce(r: ScraperRunner, outs: seq<StepOutcome>, hookOuts: seq<Outcome>, quit: Outcome)
    requires |outs| == |r.steps| && |hookOuts| == |r.errorHooks|
    ensures multiset(Run(r, outs, hookOuts, quit).trace)[Quit(r.driver)] == 1
  {
  }
}
