# termux-web-scraper: the step pipeline, modelled in Dafny

This project models the core of `termux_web_scraper`: a builder that
collects named steps, error hooks, notifiers, an initial state and Firefox
options, and a runner that executes the steps against one Selenium driver.
The runner executes the steps in order inside `try`. An `Exception` from a
step goes to every error hook in order and is then re-raised. A `finally`
clause always quits the driver.

The model is functional. The driver is an opaque handle. The shared state is
an uninterpreted map. Step functions, hooks and notifiers are values. What
each external call did is an input: a step completed, raised an `Exception`,
or raised a bare `BaseException`. Likewise a hook or `quit()` returned or
raised, a capture returned or raised, and an HTTP post got a response, a
`RequestException` or another exception. A run is the trace of calls the
runner makes, with their arguments, plus how `run()` ends.

The modules are listed below. `Base` holds values shared by all of them, and
`Pipeline` composes the others. Each remaining module follows one source file.

- `Base` (base.dfy) holds shared values: `Exc` (class name and `str(e)`),
  `Outcome`, `Driver`, and the "call each in order until one raises"
  functions `FirstRaise`, `CallsMade` and `Propagated`.
- `Helpers` (helpers.dfy) builds the screenshot file name
  `<dir>/<YYYYMMDD_HHMMSS>.png`, with its parse-back and ordering lemmas.
- `Notifiers` (notifiers.dfy) covers `TelegramNotifier`: its constructor,
  Python's `str.replace`, and `notify`. It also holds the loop that sends one
  message to a list of notifiers.
- `ErrorHooks` (error_hooks.dfy) covers the `ScreenshotErrorHook` constructor
  and `handle`, and `NotificationErrorHook.handle`.
- `Runner` (runner.dfy) covers `ScraperRunner`. The record constructor
  `ScraperRunner(...)` models `__init__`, which only stores its five
  arguments. `Execute` is the loop-by-loop model of `run`. `Run` describes
  the same behaviour declaratively, by where the run stops. `NotifyAll` is
  `_notify_callback`.
- `Builder` (builder.dfy) covers `ScraperBuilder`: the `with_*` calls, `build`
  and `get_default_driver_options`.
- `Pipeline` (pipeline.dfy) composes the runner with the concrete hooks. It
  also works through one pipeline whose second step times out.

Notes on the code's behaviour, which the model follows:

- A raising hook is not isolated. The hook loop stops, and the hook's
  exception leaves `run()` in place of the step's (scraper_runner.py:47-49).
- A raising notifier is not isolated either, in `_notify_callback` or in the
  notification hook. Only `RequestException` is swallowed, and only inside
  `TelegramNotifier.notify`.
- An exception from `driver.quit()` is not swallowed. Python's `finally`
  lets it replace whatever was propagating.
- Only `Exception` reaches the hooks. A `BaseException` that is not an
  `Exception` skips them and still quits the driver.
- The constructor error is `ValueError`.
- Every HTTP status leaves `notify` returning normally. `raise_for_status`
  raises `HTTPError` only for 4xx and 5xx, and that is a `RequestException`.
- The screenshot hook tests only whether the driver is truthy, not whether
  the session is still usable.

## Model

| member | source | states |
|---|---|---|
| Base.FirstRaise | termux_web_scraper/scraper_runner.py:47-48 | Gives the index of the first raising call: all calls before it returned, and the one at it raised (or there is none). |
| Runner.FirstFailure | termux_web_scraper/scraper_runner.py:41-45 | Gives the index of the first step whose function raised, whether an `Exception` or a `BaseException`: every earlier step completed. It is `Base.FirstRaise` applied to the steps. |
| Runner.TryExcept | termux_web_scraper/scraper_runner.py:41-49 | Nothing is pending after the `try`/`except` exactly when every step completed. The step calls are steps 0..k with no later index, and no quit happens there. A `BaseException` calls no hook and stays pending. An `Exception` e hands e to every hook called. e stays pending when no hook raises; otherwise the first raising hook's exception replaces it. |
| Runner.Finally | termux_web_scraper/scraper_runner.py:50-52 | The `finally` clause always appends the quit of the runner's driver. A raising `quit()` decides the result. Otherwise `run()` returns exactly when nothing was propagating. |
| Runner.Run | termux_web_scraper/scraper_runner.py:37-52 | On every path the trace ends with the driver's quit, and quit occurs nowhere else. A raising `quit()` is what `run()` raises. `run()` returns normally exactly when every step completed and quit returned. |
| Runner.Execute | termux_web_scraper/scraper_runner.py:37-52 | The step loop, the `except Exception` hook loop with its bare `raise`, and the `finally` quit make exactly the calls the declarative `Run` describes, and end the same way. |
| Runner.NotifyAll | termux_web_scraper/scraper_runner.py:54-57 | The step callback's k-th call goes to the runner's k-th notifier, with the same message each time. It returns exactly when it reached them all and none raised. Every notifier before the last one reached returned. So when it raises, it is the first raising notifier that ended it, with that notifier's exception. |
| Runner.AllStepsComplete | termux_web_scraper/scraper_runner.py:41-45 | When no step raises, every step runs exactly once in list order and no hook is called. The trace has n+1 events, and `run()` returns if quit does. |
| Runner.StepsStopAtFailure | termux_web_scraper/scraper_runner.py:42-45 | When step k is the first to raise, the step calls are exactly steps 0..k in order. No later step ever runs. |
| Runner.ExceptionReachesEveryHook | termux_web_scraper/scraper_runner.py:45-52 | A step `Exception` e with no raising hook gives the trace: the steps through k, then every hook once in registration order with e, then quit. `run()` re-raises e itself when `quit()` returns, and raises quit's exception when it raises. |
| Runner.RaisingHookStopsDispatch | termux_web_scraper/scraper_runner.py:47-52 | When hook j raises h, hooks after j are not called and quit still runs last. When `quit()` returns, `run()` raises h instead of the step's exception. When `quit()` raises, quit's exception replaces h. |
| Runner.BaseExceptionBypassesHooks | termux_web_scraper/scraper_runner.py:41-52 | A `BaseException` that is not an `Exception` calls no hook, and the driver is still quit. The exception propagates when `quit()` returns; otherwise quit's exception replaces it. |
| Runner.SameArguments | termux_web_scraper/scraper_runner.py:44-48 | Every step gets its own function and the runner's driver, state and notify callback. Every hook gets the failing step's exception and the runner's driver and notifiers. |
| Runner.QuitExactlyOnce | termux_web_scraper/scraper_runner.py:50-52 | The driver's quit occurs exactly once in the trace of every run. |
| Helpers.Pad | termux_web_scraper/helpers.py:83 | A strftime numeric field is written with exactly the field's width, all digits. |
| Helpers.Timestamp | termux_web_scraper/helpers.py:83 | For every valid date-time, `%Y%m%d_%H%M%S` has 15 characters, with `_` at index 8 and a digit everywhere else. |
| Helpers.TimestampRoundTrip | termux_web_scraper/helpers.py:83 | Parsing the timestamp's six fields gives back exactly the date-time it was made from. |
| Helpers.TimestampInjective | termux_web_scraper/helpers.py:83 | Two valid date-times have the same timestamp if and only if they are equal. |
| Helpers.ScreenshotName | termux_web_scraper/helpers.py:84 | The name is the directory, then `/`, then the 15-character timestamp, then `.png`, at fixed positions. |
| Helpers.ScreenshotNameInjective | termux_web_scraper/helpers.py:77-84 | In one directory, screenshots get the same name if and only if they are taken in the same second. This is the uniqueness the docstring claims, at second precision. |
| Helpers.ScreenshotNameOrder | termux_web_scraper/helpers.py:83-84 | In one directory, one name sorts lexicographically before another exactly when its date-time is earlier. |
| Helpers.SaveScreenshot | termux_web_scraper/helpers.py:73-86 | `save_screenshot` makes one capture on the given driver. Its path is the directory, `/`, a timestamp that parses back to the clock reading, and `.png`. |
| Notifiers.ReplaceAll | termux_web_scraper/notifier.py:34 | `str.replace` leaves text without the pattern's first character unchanged. It keeps the length when the replacement is as long as the pattern. It introduces no character that is not in the input or the replacement. |
| Notifiers.ReplaceAbsent | termux_web_scraper/notifier.py:34 | `str.replace` leaves a string with no occurrence of the pattern unchanged. |
| Notifiers.TemplateEndpoint | termux_web_scraper/notifier.py:34 | A template holding the placeholder once, with no other `<`, gets the token exactly in its place. |
| Notifiers.ReplaceSkipsNoOccurrence | termux_web_scraper/notifier.py:34 | `str.replace` copies unchanged any leading text in which no occurrence of the pattern starts. |
| Notifiers.ReplaceOccurrence | termux_web_scraper/notifier.py:34 | An occurrence of the pattern after text in which no occurrence starts becomes the replacement. Scanning resumes right after it, so later occurrences are replaced too. A stray `<` before the placeholder is allowed. |
| Notifiers.ReplaceTwoOccurrences | termux_web_scraper/notifier.py:34 | Two occurrences, each after text that cannot start the pattern, both become the replacement, and nothing else changes. |
| Notifiers.TwoPlaceholderEndpoint | termux_web_scraper/notifier.py:34 | A URL template with the placeholder twice gets the token at both places, not only the first. |
| Notifiers.NewTelegram | termux_web_scraper/notifier.py:18-35 | The constructor raises `ValueError` with the fixed text if and only if the token, chat id or URL is empty. Otherwise it stores the URL with every placeholder replaced by the token, and the chat id unchanged. |
| Notifiers.EndpointWithoutPlaceholder | termux_web_scraper/notifier.py:34-35 | An `api_url` without `<your_bot_token>` is stored exactly as given, and the chat id is stored unchanged. |
| Notifiers.DefaultEndpoint | termux_web_scraper/notifier.py:22-35 | With the default template the stored URL is `https://api.telegram.org/bot` + token + `/sendMessage`. |
| Notifiers.Notify | termux_web_scraper/notifier.py:37-49 | `notify` issues one post to the stored URL with the stored chat id and the message as text. It returns normally exactly when the post raised nothing but a `RequestException`. Any other exception propagates unchanged. |
| Notifiers.NotifyIgnoresStatus | termux_web_scraper/notifier.py:44-49 | Every response status, and every `RequestException`, leaves `notify` making the same request and returning normally. |
| Notifiers.Fanout | termux_web_scraper/error_hook.py:58-59 | The loop over notifiers makes the k-th call to notifier k, with the same message. When none raises it reaches them all and returns. Otherwise it stops at the first raising one, which is the last one called, and propagates its exception. |
| Notifiers.NotifyEach | termux_web_scraper/error_hook.py:58-59 | The one-call-at-a-time loop makes exactly the calls, with exactly the outcome, that `Fanout` describes. |
| ErrorHooks.NewScreenshotHook | termux_web_scraper/error_hook.py:30-38 | After construction the directory exists. An existing directory is accepted without touching the filesystem. Construction fails only when the directory is missing and `makedirs` raises, and then nothing changes. A successful `makedirs` adds exactly the directory and its parents. Parents-exist closure is preserved. |
| ErrorHooks.NewScreenshotHookIdempotent | termux_web_scraper/error_hook.py:38 | Constructing a second hook on the same directory changes nothing, whatever `makedirs` would do. |
| ErrorHooks.ErrorMessage | termux_web_scraper/error_hook.py:56 | The message is the fixed prefix `An unexpected error occurred: ` followed by exactly `str(exception)`. |
| ErrorHooks.ErrorMessageInjective | termux_web_scraper/error_hook.py:56 | Two exceptions give the same message if and only if their texts are equal. |
| ErrorHooks.HandleScreenshot | termux_web_scraper/error_hook.py:40-46 | With a driver present there is exactly one capture, on that driver into the configured directory, and its outcome is the hook's. Without one there is no effect and no exception. No effect is ever a notification. |
| ErrorHooks.HandleNotification | termux_web_scraper/error_hook.py:52-59 | The formatted message goes to the supplied notifiers in list order. The hook returns exactly when none raises. Every notifier before the last one reached returned, so a raising notifier ends the loop and its exception leaves the hook. |
| ErrorHooks.Handle | termux_web_scraper/error_hook.py:11-24 | Dispatch on the hook kind: a screenshot hook does what `HandleScreenshot` describes, and a notification hook does what `HandleNotification` describes. An unknown hook has no modelled effect and the outcome it is given. |
| ErrorHooks.ScreenshotIgnoresErrorAndNotifiers | termux_web_scraper/error_hook.py:40-46 | The screenshot hook behaves the same whatever exception and notifier list it is given. |
| ErrorHooks.NotificationIgnoresDriver | termux_web_scraper/error_hook.py:52-59 | The notification hook behaves the same with any driver, present or absent. |
| ErrorHooks.TelegramFanoutCompletes | termux_web_scraper/error_hook.py:52-59 | With only Telegram notifiers whose posts at worst raise a `RequestException`, the notification hook reaches every notifier and returns. |
| Builder.DefaultOptions | termux_web_scraper/scraper_builder.py:10-29 | The default options are the arguments `--width=1920` and `--height=1080`. The four preferences are the given user agent, `extensions.enabledScopes`=0, `dom.webdriver.enabled`=false and `layers.acceleration.disabled`=true, and nothing else. |
| Builder.NewBuilder | termux_web_scraper/scraper_builder.py:37-45 | A fresh builder has no steps, hooks or notifiers, an empty state, and no driver options. |
| Builder.WithStep | termux_web_scraper/scraper_builder.py:47-59 | `with_step` keeps the earlier steps as a prefix and puts `(name, func)` last. Every other field is unchanged, and names may repeat. |
| Builder.WithErrorHook | termux_web_scraper/scraper_builder.py:61-66 | `with_error_hook` appends to the hook list only. |
| Builder.WithNotifier | termux_web_scraper/scraper_builder.py:68-73 | `with_notifier` appends to the notifier list only. |
| Builder.WithState | termux_web_scraper/scraper_builder.py:75-80 | `with_state` replaces the state and leaves every other field unchanged. |
| Builder.WithDriverOptions | termux_web_scraper/scraper_builder.py:82-87 | `with_driver_options` replaces the options and leaves every other field unchanged. |
| Builder.StateLastWins | termux_web_scraper/scraper_builder.py:75-80 | Of two `with_state` calls, the last one wins. |
| Builder.LastStateUnset | termux_web_scraper/scraper_builder.py:44-80 | A chain with no `with_state` call leaves the state the builder started with. |
| Builder.OptionsLastWins | termux_web_scraper/scraper_builder.py:82-87 | Of two `with_driver_options` calls, the last one wins. |
| Builder.LaunchOptions | termux_web_scraper/scraper_builder.py:93 | `build` uses the configured options when set, otherwise the defaults. |
| Builder.Build | termux_web_scraper/scraper_builder.py:89-101 | `build` starts Firefox with those options. It fails exactly when starting fails, with that error. Otherwise the runner gets the session and the builder's steps, hooks, state and notifiers unchanged. |
| Builder.LastOptionsSet | termux_web_scraper/scraper_builder.py:82-93 | A chain of calls sets driver options if and only if one of its calls is `with_driver_options`. |
| Builder.ApplyCollects | termux_web_scraper/scraper_builder.py:47-87 | Any chain of `with_*` calls appends the steps, hooks and notifiers in call order, each to its own list. State and options come from the last call that set them. |
| Builder.BuildFromChain | termux_web_scraper/scraper_builder.py:89-101 | Building after any chain hands the runner exactly the chain's steps, hooks and notifiers, and its last state (empty if none). Firefox starts with the last options, or the defaults when `with_driver_options` was never called. |
| Pipeline.HookOutcomes | termux_web_scraper/scraper_runner.py:47-48 | Each hook's outcome is what its `handle` does with the exception, the runner's driver and the runner's notifiers. |
| Pipeline.BuiltInHooksReraise | termux_web_scraper/scraper_runner.py:45-49 | With only the screenshot and notification hooks, no capture or notifier raising, and a `quit()` that returns: every hook runs once in order, and `run()` re-raises the step's own exception. |
| Pipeline.ScreenshotHookWrites | termux_web_scraper/error_hook.py:45-46 | With a driver and a capture that returns, the screenshot hook's only effect is one file `<dir>/<timestamp>.png`, and it returns. |
| Pipeline.NotificationHookSendsOne | termux_web_scraper/error_hook.py:56-59 | With a single notifier that returns, the notification hook makes exactly one call: the formatted message to that notifier. |
| Pipeline.ScenarioBuild | termux_web_scraper/scraper_builder.py:89-101 | The chain of steps open/login/scrape, the two hooks and one Telegram notifier builds the expected runner on the default options. |
| Pipeline.ScenarioRun | termux_web_scraper/scraper_runner.py:37-52 | In that pipeline, when login times out and `quit()` returns: open and login run, scrape does not, both hooks get the timeout, the driver is quit, and `run()` raises the timeout. |
| Pipeline.ScenarioScreenshot | termux_web_scraper/helpers.py:83-86 | At 2024-05-17 09:03:07 the screenshot hook writes `screenshots/20240517_090307.png`. |
| Pipeline.ScenarioNotification | termux_web_scraper/error_hook.py:56-59 | The notification hook sends the Telegram chat exactly one message, `An unexpected error occurred: ` plus the timeout text. |

## Left out

- Selenium itself is not modelled: `webdriver.Firefox`, the internals of
  `Options`, navigation, and what a screenshot contains. The driver is a
  handle; starting it, `quit()` and `save_screenshot` are inputs or trace
  events.
- `get_element`, `click_element` and `send_keys` are not modelled. They are
  thin wrappers over Selenium waits with timeouts.
- `random_sleep` is not modelled: it uses a random float and `time.sleep`.
- The HTTP request, `os.makedirs`, `datetime.now()` and the contents of
  step functions are inputs, not computations. What a step function does,
  including any notify callback it makes, shows up only as that step's
  outcome.
- `print` logging is not modelled. That covers the "sent" and "error" log
  lines of `notify`, so the response status has no other effect in the model.
- Python aliasing between the builder's lists and the runner's is not
  modelled, and neither are repeated or concurrent `run()` calls. The model
  passes values, not shared references.
- Helpers.Timestamp: `%Y` is modelled as four zero-padded digits. glibc
  writes years below 1000 without padding, so for those years the length
  property depends on the platform.
- ErrorHooks.NewScreenshotHook: paths are plain strings. `makedirs` path
  normalisation is not modelled: trailing slashes, `..`, and a path that
  exists as a file. A failed `makedirs` leaves the directory set unchanged,
  even if it created some parents first.
- Builder.AddArgument and Builder.SetPreference record arguments and
  preferences as data. Selenium's own checks on them are not modelled.
- Per-hook and per-notifier failure isolation, and swallowing a failing
  `quit()`, are left out because the code does neither.
