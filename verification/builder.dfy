/**
 `ScraperBuilder`: chained configuration as record updates, the default
 Firefox options as a constant record, and `build`, which starts the
 driver (an input: the session it produced or the exception it raised)
 and wires the runner with what was accumulated.
 */
module Builder {
  import opened Base
  import opened Notifiers
  import opened ErrorHooks
  import opened Runner

  /** A Firefox preference value: a string, an integer or a boolean. */
  datatype PrefValue = PrefString(s: string) | PrefInt(i: int) | PrefBool(b: bool)

  /** Firefox `Options`: command-line arguments in order and the preference dictionary. */
  datatype Options = Options(arguments: seq<string>, preferences: map<string, PrefValue>)

  const UserAgent := "Mozilla/5.0 (Windows NT 10.0; Win64; x64; rv:115.0) Gecko/20100101 Firefox/115.0"

  /** `options.add_argument(a)` appends to the argument list. */
  function AddArgument(o: Options, a: string): (o': Options)
    ensures o'.arguments == o.arguments + [a] && o'.preferences == o.preferences
  {
    o.(arguments := o.arguments + [a])
  }

  /** `options.set_preference(k, v)` sets one key of the preference dictionary. */
  function SetPreference(o: Options, k: string, v: PrefValue): (o': Options)
    ensures o'.arguments == o.arguments
    ensures k in o'.preferences && o'.preferences[k] == v
    ensures forall k' :: k' in o.preferences && k' != k ==> k' in o'.preferences && o'.preferences[k'] == o.preferences[k']
    ensures o'.preferences.Keys == o.preferences.Keys + {k}
  {
    o.(preferences := o.preferences[k := v])
  }

  /**
   `get_default_driver_options()`: a 1920x1080 window, a desktop Firefox
   user agent, extensions disabled, the `navigator.webdriver` flag off and
   hardware acceleration off.
   */
  function DefaultOptions(): (o: Options)
    ensures o.arguments == ["--width=1920", "--height=1080"]
    ensures o.preferences.Keys == {"general.useragent.override", "extensions.enabledScopes",
                                   "dom.webdriver.enabled", "layers.acceleration.disabled"}
    ensures o.preferences["general.useragent.override"] == PrefString(UserAgent)
    ensures o.preferences["extensions.enabledScopes"] == PrefInt(0)
    ensures o.preferences["dom.webdriver.enabled"] == PrefBool(false)
    ensures o.preferences["layers.acceleration.disabled"] == PrefBool(true)
  {
    var o := Options([], map[]);
    var o := AddArgument(o, "--width=1920");
    var o := AddArgument(o, "--height=1080");
    var o := SetPreference(o, "general.useragent.override", PrefString(UserAgent));
    var o := SetPreference(o, "extensions.enabledScopes", PrefInt(0));
    var o := SetPreference(o, "dom.webdriver.enabled", PrefBool(false));
    SetPreference(o, "layers.acceleration.disabled", PrefBool(true))
  }

  /** The builder's fields; `driverOptions` is `None` until `with_driver_options` is called. */
  datatype ScraperBuilder = ScraperBuilder(
    steps: seq<Step>,
    errorHooks: seq<ErrorHook>,
    notifiers: seq<Notifier>,
    state: State,
    driverOptions: Option<Options>)

  /** `ScraperBuilder()`: nothing configured. */
  function NewBuilder(): (b: ScraperBuilder)
    ensures b.steps == [] && b.errorHooks == [] && b.notifiers == []
    ensures b.state == map[] && b.driverOptions == None
  {
    ScraperBuilder([], [], [], map[], None)
  }

  /** `with_step(name, func)`: one more step at the end; names need not be unique. */
  function WithStep(b: ScraperBuilder, name: string, action: Action): (b': ScraperBuilder)
    ensures |b'.steps| == |b.steps| + 1 && b'.steps[..|b.steps|] == b.steps
    ensures b'.steps[|b.steps|] == Step(name, action)
    ensures b'.errorHooks == b.errorHooks && b'.notifiers == b.notifiers
    ensures b'.state == b.state && b'.driverOptions == b.driverOptions
  {
    b.(steps := b.steps + [Step(name, action)])
  }

  /** `with_error_hook(hook)`: one more hook at the end, nothing else changes. */
  function WithErrorHook(b: ScraperBuilder, h: ErrorHook): (b': ScraperBuilder)
    ensures |b'.errorHooks| == |b.errorHooks| + 1 && b'.errorHooks[..|b.errorHooks|] == b.errorHooks
    ensures b'.errorHooks[|b.errorHooks|] == h
    ensures b'.steps == b.steps && b'.notifiers == b.notifiers
    ensures b'.state == b.state && b'.driverOptions == b.driverOptions
  {
    b.(errorHooks := b.errorHooks + [h])
  }

  /** `with_notifier(notifier)`: one more notifier at the end, nothing else changes. */
  function WithNotifier(b: ScraperBuilder, n: Notifier): (b': ScraperBuilder)
    ensures |b'.notifiers| == |b.notifiers| + 1 && b'.notifiers[..|b.notifiers|] == b.notifiers
    ensures b'.notifiers[|b.notifiers|] == n
    ensures b'.steps == b.steps && b'.errorHooks == b.errorHooks
    ensures b'.state == b.state && b'.driverOptions == b.driverOptions
  {
    b.(notifiers := b.notifiers + [n])
  }

  /** `with_state(state)`: replaces the initial state. */
  function WithState(b: ScraperBuilder, s: State): (b': ScraperBuilder)
    ensures b'.state == s
    ensures b'.steps == b.steps && b'.errorHooks == b.errorHooks && b'.notifiers == b.notifiers
    ensures b'.driverOptions == b.driverOptions
  {
    b.(state := s)
  }

  /** `with_driver_options(options)`: replaces the driver options. */
  function WithDriverOptions(b: ScraperBuilder, o: Options): (b': ScraperBuilder)
    ensures b'.driverOptions == Some(o)
    ensures b'.steps == b.steps && b'.errorHooks == b.errorHooks && b'.notifiers == b.notifiers
    ensures b'.state == b.state
  {
    b.(driverOptions := Some(o))
  }

  /** The options `build` starts Firefox with: `self._driver_options or get_default_driver_options()`. */
  function LaunchOptions(b: ScraperBuilder): (o: Options)
    ensures b.driverOptions.Some? ==> o == b.driverOptions.value
    ensures b.driverOptions.None? ==> o == DefaultOptions()
  {
    // an `Options` object defines no truth value of its own, so `or` only replaces `None`
    match b.driverOptions
    case Some(o) => o
    case None => DefaultOptions()
  }

  datatype Built = Built(launchedWith: Options, runner: Result<ScraperRunner>)

  /**
   `build()`: starts Firefox with the launch options (`launch` is the
   session `webdriver.Firefox(options)` produced, or what it raised, which
   `build` does not catch) and hands the steps, hooks, state and notifiers
   to the runner exactly as accumulated.
   */
  function Build(b: ScraperBuilder, launch: Result<Driver>): (r: Built)
    ensures r.launchedWith == LaunchOptions(b)
    ensures r.runner.Ok? <==> launch.Ok?
    ensures launch.Err? ==> r.runner.error == launch.error
    ensures r.runner.Ok? ==> && r.runner.value.driver == launch.value
                             && r.runner.value.steps == b.steps
                             && r.runner.value.errorHooks == b.errorHooks
                             && r.runner.value.state == b.state
                             && r.runner.value.notifiers == b.notifiers
  {
    var options := LaunchOptions(b);
    match launch
    case Ok(driver) => Built(options, Ok(ScraperRunner(driver, b.steps, b.errorHooks, b.state, b.notifiers)))
    case Err(e) => Built(options, Err(e))
  }

  // ---------------------------------------------------------------------------
  // A chain of configuration calls

  /** One chained configuration call. */
  datatype Call =
    | AddStep(name: string, action: Action)
    | AddErrorHook(hook: ErrorHook)
    | AddNotifier(notifier: Notifier)
    | SetState(state: State)
    | SetDriverOptions(options: Options)

  /** `b.with_...(...).with_...(...)...`: the calls applied left to right. */
  function Apply(b: ScraperBuilder, calls: seq<Call>): ScraperBuilder
    decreases |calls|
  {
    if |calls| == 0 then b
    else
      var b' := match calls[0]
        case AddStep(n, a) => WithStep(b, n, a)
        case AddErrorHook(h) => WithErrorHook(b, h)
        case AddNotifier(n) => WithNotifier(b, n)
        case SetState(s) => WithState(b, s)
        case SetDriverOptions(o) => WithDriverOptions(b, o);
      Apply(b', calls[1..])
  }

  /** The steps named in a chain, in call order. */
  function StepsIn(calls: seq<Call>): seq<Step>
    decreases |calls|
  {
    if |calls| == 0 then []
    else (if calls[0].AddStep? then [Step(calls[0].name, calls[0].action)] else []) + StepsIn(calls[1..])
  }

  function HooksIn(calls: seq<Call>): seq<ErrorHook>
    decreases |calls|
  {
    if |calls| == 0 then []
    else (if calls[0].AddErrorHook? then [calls[0].hook] else []) + HooksIn(calls[1..])
  }

  function NotifiersIn(calls: seq<Call>): seq<Notifier>
    decreases |calls|
  {
    if |calls| == 0 then []
    else (if calls[0].AddNotifier? then [calls[0].notifier] else []) + NotifiersIn(calls[1..])
  }

  /** The state the last `with_state` in the chain set, or `s` when there is none. */
  function LastState(calls: seq<Call>, s: State): State
    decreases |calls|
  {
    if |calls| == 0 then s
    else if calls[|calls| - 1].SetState? then calls[|calls| - 1].state
    else LastState(calls[..|calls| - 1], s)
  }

  /** The options the last `with_driver_options` in the chain set, or `o` when there is none. */
  function LastOptions(calls: seq<Call>, o: Option<Options>): Option<Options>
    decreases |calls|
  {
    if |calls| == 0 then o
    else if calls[|calls| - 1].SetDriverOptions? then Some(calls[|calls| - 1].options)
    else LastOptions(calls[..|calls| - 1], o)
  }

  /** A chain without `with_state` leaves the state as it was. */
  lemma {:induction false} LastStateUnset(calls: seq<Call>, s: State)
    requires forall i :: 0 <= i < |calls| ==> !calls[i].SetState?
    ensures LastState(calls, s) == s
    decreases |calls|
  {
    if |calls| > 0 {
      LastStateUnset(calls[..|calls| - 1], s);
    }
  }

  /** A chain sets driver options exactly when one of its calls is `with_driver_options`. */
  lemma {:induction false} LastOptionsSet(calls: seq<Call>)
    ensures LastOptions(calls, None).Some? <==> exists i :: 0 <= i < |calls| && calls[i].SetDriverOptions?
    decreases |calls|
  {
    if |calls| > 0 {
      var front := calls[..|calls| - 1];
      LastOptionsSet(front);
      if exists i :: 0 <= i < |front| && front[i].SetDriverOptions? {
        var i :| 0 <= i < |front| && front[i].SetDriverOptions?;
        assert calls[i] == front[i];
      }
      if exists i :: 0 <= i < |calls| && calls[i].SetDriverOptions? {
        var i :| 0 <= i < |calls| && calls[i].SetDriverOptions?;
        if i < |calls| - 1 {
          assert front[i] == calls[i];
        }
      }
    }
  }

  /** The last-call view of a chain, seen from its first call. */
  lemma {:induction false} LastOfCons(c: Call, rest: seq<Call>, s: State, o: Option<Options>)
    ensures LastState([c] + rest, s) == LastState(rest, if c.SetState? then c.state else s)
    ensures LastOptions([c] + rest, o) == LastOptions(rest, if c.SetDriverOptions? then Some(c.options) else o)
    decreases |rest|
  {
    var cs := [c] + rest;
    if |rest| > 0 {
      assert cs[|cs| - 1] == rest[|rest| - 1];
      assert cs[..|cs| - 1] == [c] + rest[..|rest| - 1];
      LastOfCons(c, rest[..|rest| - 1], s, o);
    } else {
      assert cs == [c];
      assert cs[..|cs| - 1] == [];
    }
  }

  /**
   A chain of configuration calls collects the steps, hooks and notifiers
   in call order, each list on its own, after what the builder already
   held; the state and the driver options are those of the last call that
   set them.
   */
  lemma {:induction false} ApplyCollects(b: ScraperBuilder, calls: seq<Call>)
    ensures var b' := Apply(b, calls);
            && b'.steps == b.steps + StepsIn(calls)
            && b'.errorHooks == b.errorHooks + HooksIn(calls)
            && b'.notifiers == b.notifiers + NotifiersIn(calls)
            && b'.state == LastState(calls, b.state)
            && b'.driverOptions == LastOptions(calls, b.driverOptions)
    decreases |calls|
  {
    if |calls| > 0 {
      var c := calls[0];
      var b1 := match c
        case AddStep(n, a) => WithStep(b, n, a)
        case AddErrorHook(h) => WithErrorHook(b, h)
        case AddNotifier(n) => WithNotifier(b, n)
        case SetState(s) => WithState(b, s)
        case SetDriverOptions(o) => WithDriverOptions(b, o);
      ApplyCollects(b1, calls[1..]);
      assert calls == [c] + calls[1..];
      LastOfCons(c, calls[1..], b.state, b.driverOptions);
      assert b1.steps == b.steps + (if c.AddStep? then [Step(c.name, c.action)] else []);
      assert b1.errorHooks == b.errorHooks + (if c.AddErrorHook? then [c.hook] else []);
      assert b1.notifiers == b.notifiers + (if c.AddNotifier? then [c.notifier] else []);
    } else {
      assert b.steps + [] == b.steps;
      assert b.errorHooks + [] == b.errorHooks;
      assert b.notifiers + [] == b.notifiers;
    }
  }

  /** Two `with_state` calls in a row: the second wins. */
  lemma StateLastWins(b: ScraperBuilder, s1: State, s2: State)
    ensures WithState(WithState(b, s1), s2) == WithState(b, s2)
  {
  }

  /** Two `with_driver_options` calls in a row: the second wins. */
  lemma OptionsLastWins(b: ScraperBuilder, o1: Options, o2: Options)
    ensures WithDriverOptions(WithDriverOptions(b, o1), o2) == WithDriverOptions(b, o2)
  {
  }

  /**
   Building from a fresh builder after a chain of calls: the runner gets
   exactly the chain's steps, hooks and notifiers in call order and the
   last state set (empty if none), and Firefox starts with the last options
   set or, if none were, the defaults.
   */
  lemma BuildFromChain(calls: seq<Call>, driver: Driver)
    ensures var r := Build(Apply(NewBuilder(), calls), Ok(driver));
            && ((forall i :: 0 <= i < |calls| ==> !calls[i].SetDriverOptions?) ==> r.launchedWith == DefaultOptions())
            && r.runner == Ok(ScraperRunner(driver, StepsIn(calls), HooksIn(calls), LastState(calls, map[]),
                                            NotifiersIn(calls)))
            && r.launchedWith == (match LastOptions(calls, None)
                                  case Some(o) => o
                                  case None => DefaultOptions())
  {
    ApplyCollects(NewBuilder(), calls);
    LastOptionsSet(calls);
    assert [] + StepsIn(calls) == StepsIn(calls);
    assert [] + HooksIn(calls) == HooksIn(calls);
    assert [] + NotifiersIn(calls) == NotifiersIn(calls);
  }
}
