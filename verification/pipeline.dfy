/**
 The pieces put together: a runner produced by the builder, its hooks
 given their concrete behaviour, and a worked pipeline of three steps in
 which the second one times out.
 */
module Pipeline {
  import opened Base
  import opened Helpers
  import opened Notifiers
  import opened ErrorHooks
  import opened Runner
  import opened Builder

  /** Every hook of the runner can be called in its world. */
  predicate WorldsFit(r: ScraperRunner, worlds: seq<HookWorld>) {
    && |worlds| == |r.errorHooks|
    && forall j :: 0 <= j < |worlds| ==> Fits(r.errorHooks[j], r.notifiers, worlds[j])
  }

  /** What each of the runner's hooks does when handed `e`, the runner's driver and its notifiers. */
  function HookOutcomes(r: ScraperRunner, e: Exc, worlds: seq<HookWorld>): (outs: seq<Outcome>)
    requires WorldsFit(r, worlds)
    ensures |outs| == |r.errorHooks|
    ensures forall j :: 0 <= j < |outs| ==> outs[j] == Handle(r.errorHooks[j], e, r.driver, r.notifiers, worlds[j]).outcome
  {
    seq(|worlds|, j requires 0 <= j < |worlds| => Handle(r.errorHooks[j], e, r.driver, r.notifiers, worlds[j]).outcome)
  }

  /** A world in which neither the capture nor any notifier raises. */
  predicate Quiet(w: HookWorld) {
    w.capture.Returns? && forall n :: 0 <= n < |w.notify| ==> w.notify[n].Returns?
  }

  /**
   With only the two built-in hooks and nothing below them raising, the
   hooks all run and `run()` re-raises the step's own exception.
   */
  lemma BuiltInHooksReraise(r: ScraperRunner, outs: seq<StepOutcome>, worlds: seq<HookWorld>, k: nat, e: Exc)
    requires |outs| == |r.steps| && WorldsFit(r, worlds)
    requires k < |outs| && outs[k] == RaisesException(e)
    requires forall i :: 0 <= i < k ==> outs[i].Completes?
    requires forall j :: 0 <= j < |r.errorHooks| ==> !r.errorHooks[j].CustomHook?
    requires forall j :: 0 <= j < |worlds| ==> Quiet(worlds[j])
    ensures var o := Run(r, outs, HookOutcomes(r, e, worlds), Returns);
            && o.trace == StepEvents(r, k + 1) + HookEvents(r, e, |r.errorHooks|) + [Quit(r.driver)]
            && o.result == Raised(e)
  {
    var hookOuts := HookOutcomes(r, e, worlds);
    forall j | 0 <= j < |hookOuts| ensures hookOuts[j].Returns? {
      var h := r.errorHooks[j];
      if h.NotificationHook? {
        var hr := HandleNotification(e, r.notifiers, worlds[j].notify);
        assert hr.outcome.Returns?;
      }
    }
    ExceptionReachesEveryHook(r, outs, hookOuts, Returns, k, e);
  }

  // ---------------------------------------------------------------------------
  // A worked pipeline: steps "open", "login", "scrape"; "login" times out

  const ChatA := TelegramNotifier("https://api.telegram.org/bot123:abc/sendMessage", "42")
  const Timeout := Exc("TimeoutError", "login page did not load")
  const Shot := DateTime(2024, 5, 17, 9, 3, 7)

  function ScenarioCalls(): seq<Call> {
    [AddStep("open", Action(0)), AddStep("login", Action(1)), AddStep("scrape", Action(2)),
     AddErrorHook(ScreenshotHook("screenshots")), AddErrorHook(NotificationHook),
     AddNotifier(Telegram(ChatA))]
  }

  /** The runner the chain is expected to build. */
  function ScenarioRunner(driver: Driver): ScraperRunner {
    ScraperRunner(driver, [Step("open", Action(0)), Step("login", Action(1)), Step("scrape", Action(2))],
                  [ScreenshotHook("screenshots"), NotificationHook], map[], [Telegram(ChatA)])
  }

  function ScenarioWorlds(): seq<HookWorld> {
    [HookWorld(Shot, Returns, [], Returns),
     HookWorld(Shot, Returns, [Notify(ChatA, ErrorMessage(Timeout), Response(200)).outcome], Returns)]
  }

  /** The steps the chain collects. */
  lemma ScenarioSteps()
    ensures StepsIn(ScenarioCalls()) == [Step("open", Action(0)), Step("login", Action(1)), Step("scrape", Action(2))]
  {
  }

  /** The hooks the chain collects. */
  lemma ScenarioHooks()
    ensures HooksIn(ScenarioCalls()) == [ScreenshotHook("screenshots"), NotificationHook]
  {
  }

  /** The notifiers the chain collects. */
  lemma ScenarioNotifiers()
    ensures NotifiersIn(ScenarioCalls()) == [Telegram(ChatA)]
  {
  }

  /** The chain sets neither a state nor driver options. */
  lemma ScenarioNoSetters()
    ensures LastState(ScenarioCalls(), map[]) == map[]
    ensures forall i :: 0 <= i < |ScenarioCalls()| ==> !ScenarioCalls()[i].SetDriverOptions?
  {
    LastStateUnset(ScenarioCalls(), map[]);
  }

  /** The chain builds that runner, with Firefox started on the default options. */
  lemma ScenarioBuild(driver: Driver)
    ensures Build(Apply(NewBuilder(), ScenarioCalls()), Ok(driver)) == Built(DefaultOptions(), Ok(ScenarioRunner(driver)))
  {
    BuildFromChain(ScenarioCalls(), driver);
    ScenarioSteps();
    ScenarioHooks();
    ScenarioNotifiers();
    ScenarioNoSetters();
  }

  /**
   "open" runs, "login" runs and raises, "scrape" never runs; both hooks
   are called with the timeout; the driver is quit; `run()` raises the
   timeout.
   */
  lemma ScenarioRun(driver: Driver)
    ensures var r := ScenarioRunner(driver);
            && WorldsFit(r, ScenarioWorlds())
            && var o := Run(r, [Completes, RaisesException(Timeout), Completes],
                            HookOutcomes(r, Timeout, ScenarioWorlds()), Returns);
               && o.trace == [StepEvent(r, 0), StepEvent(r, 1), HookEvent(r, Timeout, 0), HookEvent(r, Timeout, 1),
                              Quit(driver)]
               && o.result == Raised(Timeout)
  {
    var r := ScenarioRunner(driver);
    var worlds := ScenarioWorlds();
    assert Fits(r.errorHooks[0], r.notifiers, worlds[0]) && Fits(r.errorHooks[1], r.notifiers, worlds[1]);
    assert Quiet(worlds[0]) && Quiet(worlds[1]);
    BuiltInHooksReraise(r, [Completes, RaisesException(Timeout), Completes], worlds, 1, Timeout);
    assert StepEvents(r, 2) == [StepEvent(r, 0), StepEvent(r, 1)];
    assert HookEvents(r, Timeout, 2) == [HookEvent(r, Timeout, 0), HookEvent(r, Timeout, 1)];
  }

  /** The clock reading of the worked pipeline, formatted. */
  lemma ShotTimestamp()
    ensures Timestamp(Shot) == "20240517_090307"
  {
    Pad4(2024);
    Pad2(5);
    Pad2(17);
    Pad2(9);
    Pad2(3);
    Pad2(7);
  }

  /** With a driver and a quiet capture, the screenshot hook writes exactly one file, `<dir>/<timestamp>.png`. */
  lemma ScreenshotHookWrites(dir: string, driver: Driver, now: DateTime, ts: string)
    requires Present(driver) && Valid(now) && Timestamp(now) == ts
    ensures HandleScreenshot(dir, driver, now, Returns)
         == HookResult([Captured(ScreenshotCall(driver, dir + "/" + ts + ".png"))], Returns)
  {
  }

  /** With one notifier that returns, the notification hook sends it exactly the formatted message. */
  lemma NotificationHookSendsOne(e: Exc, n: Notifier)
    ensures HandleNotification(e, [n], [Returns])
         == HookResult([Notified(NotifyCall(0, n, ErrorMessage(e)))], Returns)
  {
    var r := HandleNotification(e, [n], [Returns]);
    assert |r.effects| == 1;
  }

  /** The screenshot hook writes one screenshot, named after the clock reading. */
  lemma ScenarioScreenshot(driver: Driver)
    requires Present(driver)
    ensures HandleScreenshot("screenshots", driver, Shot, Returns)
         == HookResult([Captured(ScreenshotCall(driver, "screenshots" + "/" + "20240517_090307" + ".png"))], Returns)
  {
    ShotTimestamp();
    ScreenshotHookWrites("screenshots", driver, Shot, "20240517_090307");
  }

  /** The notification hook sends the chat one message, and the post's response does not matter. */
  lemma ScenarioNotification()
    ensures HandleNotification(Timeout, [Telegram(ChatA)], ScenarioWorlds()[1].notify)
         == HookResult([Notified(NotifyCall(0, Telegram(ChatA), "An unexpected error occurred: login page did not load"))],
                       Returns)
  {
    assert ScenarioWorlds()[1].notify == [Returns];
    NotificationHookSendsOne(Timeout, Telegram(ChatA));
    assert ErrorMessage(Timeout) == "An unexpected error occurred: " + "login page did not load";
    assert ErrorMessage(Timeout) == "An unexpected error occurred: login page did not load";
  }
}
