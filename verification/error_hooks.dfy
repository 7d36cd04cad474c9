/**
 Error hooks: the screenshot hook (its directory is created when the hook
 is constructed; it captures only when a driver is present) and the
 notification hook (one formatted message sent to every notifier it is
 handed). The filesystem is the set of existing directory paths; the clock,
 the capture and each notifier's behaviour are inputs.
 */
module ErrorHooks {
  import opened Base
  import opened Helpers
  import opened Notifiers

  /** Any object with `handle(exception, driver, notifiers)`; `CustomHook` is one the model does not look into. */
  datatype ErrorHook = ScreenshotHook(screenshotsDir: string) | NotificationHook | CustomHook(id: nat)

  /** The proper ancestors of a path: every prefix that ends just before a `/`. */
  function Parents(dir: string): set<string> {
    set i | 0 < i < |dir| && dir[i] == '/' :: dir[..i]
  }

  /** A directory set as a real filesystem has it: every directory's parents exist too. */
  predicate Closed(dirs: set<string>) {
    forall d :: d in dirs ==> Parents(d) <= dirs
  }

  /** A parent's own parents are parents of the child. */
  lemma ParentsOfParent(dir: string, p: string)
    requires p in Parents(dir)
    ensures Parents(p) <= Parents(dir)
  {
    var i :| 0 < i < |dir| && dir[i] == '/' && p == dir[..i];
    forall q | q in Parents(p) ensures q in Parents(dir) {
      var j :| 0 < j < |p| && p[j] == '/' && q == p[..j];
      assert dir[j] == '/' && q == dir[..j];
    }
  }

  datatype Constructed = Constructed(hook: Result<ErrorHook>, dirs: set<string>)

  /**
   `ScreenshotErrorHook(screenshots_dir)`, whose constructor runs
   `os.makedirs(dir, exist_ok=True)`: an existing directory is accepted as
   it is; otherwise the directory and its missing parents are created, or
   the constructor raises what `makedirs` raised (`mkdir`).
   */
  function NewScreenshotHook(dir: string, dirs: set<string>, mkdir: Outcome): (c: Constructed)
    ensures c.hook.Ok? ==> c.hook.value == ScreenshotHook(dir) && dir in c.dirs
    ensures dir in dirs ==> c == Constructed(Ok(ScreenshotHook(dir)), dirs)
    ensures c.hook.Err? <==> dir !in dirs && mkdir.Raises?
    ensures c.hook.Err? ==> c.hook.error == mkdir.error && c.dirs == dirs
    ensures c.hook.Ok? && dir !in dirs ==> c.dirs == dirs + {dir} + Parents(dir)
    ensures dirs <= c.dirs
    ensures Closed(dirs) ==> Closed(c.dirs)
  {
    if dir in dirs then
      // `exist_ok=True`: an existing directory is not an error
      Constructed(Ok(ScreenshotHook(dir)), dirs)
    else if mkdir.Raises? then
      Constructed(Err(mkdir.error), dirs)
    else
      var dirs' := dirs + {dir} + Parents(dir);
      assert Closed(dirs) ==> Closed(dirs') by {
        if Closed(dirs) {
          forall d | d in dirs' ensures Parents(d) <= dirs' {
            if d in Parents(dir) {
              ParentsOfParent(dir, d);
            }
          }
        }
      }
      Constructed(Ok(ScreenshotHook(dir)), dirs')
  }

  const ErrorMessagePrefix := "An unexpected error occurred: "

  /** The message of `NotificationErrorHook`: `f"An unexpected error occurred: {exception}"`. */
  function ErrorMessage(e: Exc): (m: string)
    ensures |m| == |ErrorMessagePrefix| + |e.text|
    ensures m[..|ErrorMessagePrefix|] == ErrorMessagePrefix
    ensures m[|ErrorMessagePrefix|..] == e.text
  {
    ErrorMessagePrefix + e.text
  }

  /** Different exception texts give different messages: the text is recoverable from the message. */
  lemma ErrorMessageInjective(e1: Exc, e2: Exc)
    ensures ErrorMessage(e1) == ErrorMessage(e2) <==> e1.text == e2.text
  {
  }

  /** What a hook did that the pipeline can observe. */
  datatype HookEffect = Captured(capture: ScreenshotCall) | Notified(call: NotifyCall)

  datatype HookResult = HookResult(effects: seq<HookEffect>, outcome: Outcome)

  /**
   Everything outside a hook that decides what its `handle` does: the
   clock reading, what the driver's `save_screenshot` did, what each
   notifier's `notify` did with the message, and what a custom hook did.
   */
  datatype HookWorld = HookWorld(now: DateTime, capture: Outcome, notify: seq<Outcome>, custom: Outcome)

  /** The world fits a hook called with `notifiers`. */
  predicate Fits(h: ErrorHook, notifiers: seq<Notifier>, w: HookWorld) {
    && (h.ScreenshotHook? ==> Valid(w.now))
    && (h.NotificationHook? ==> |w.notify| == |notifiers|)
  }

  /**
   `ScreenshotErrorHook.handle`: with a driver, exactly one
   `save_screenshot` into the configured directory, whose outcome is the
   hook's; without one, nothing at all. Notifiers are never touched.
   */
  function HandleScreenshot(dir: string, driver: Driver, now: DateTime, capture: Outcome): (r: HookResult)
    requires Valid(now)
    ensures Present(driver) ==> |r.effects| == 1 && r.effects[0].Captured?
                                && r.effects[0].capture == SaveScreenshot(driver, dir, now)
                                && r.outcome == capture
    ensures !Present(driver) ==> r == HookResult([], Returns)
    ensures forall k :: 0 <= k < |r.effects| ==> r.effects[k].Captured?
  {
    if Present(driver) then
      HookResult([Captured(SaveScreenshot(driver, dir, now))], capture)
    else
      HookResult([], Returns)
  }

  /**
   `NotificationErrorHook.handle`: the error message sent to the supplied
   notifiers in list order; a notifier that raises ends the loop and its
   exception leaves the hook.
   */
  function HandleNotification(e: Exc, notifiers: seq<Notifier>, outs: seq<Outcome>): (r: HookResult)
    requires |outs| == |notifiers|
    ensures |r.effects| <= |notifiers|
    ensures forall k :: 0 <= k < |r.effects| ==>
              r.effects[k] == Notified(NotifyCall(k, notifiers[k], ErrorMessage(e)))
    ensures r.outcome.Returns? <==> forall k :: 0 <= k < |outs| ==> outs[k].Returns?
    ensures r.outcome.Returns? ==> |r.effects| == |notifiers|
    ensures r.outcome.Raises? ==> 0 < |r.effects| && r.outcome == outs[|r.effects| - 1]
    ensures forall k :: 0 <= k < |r.effects| - 1 ==> outs[k].Returns?
  {
    var f := Fanout(notifiers, ErrorMessage(e), outs);
    HookResult(seq(|f.calls|, k requires 0 <= k < |f.calls| => Notified(f.calls[k])), f.outcome)
  }

  /** `hook.handle(e, driver, notifiers)` for each kind of hook. */
  function Handle(h: ErrorHook, e: Exc, driver: Driver, notifiers: seq<Notifier>, w: HookWorld): (r: HookResult)
    requires Fits(h, notifiers, w)
    ensures h.ScreenshotHook? ==> r == HandleScreenshot(h.screenshotsDir, driver, w.now, w.capture)
    ensures h.NotificationHook? ==> r == HandleNotification(e, notifiers, w.notify)
    ensures h.CustomHook? ==> r == HookResult([], w.custom)
    ensures h.ScreenshotHook? ==> forall k :: 0 <= k < |r.effects| ==> r.effects[k].Captured?
    ensures h.NotificationHook? ==> forall k :: 0 <= k < |r.effects| ==> r.effects[k].Notified?
  {
    match h
    case ScreenshotHook(dir) => HandleScreenshot(dir, driver, w.now, w.capture)
    case NotificationHook => HandleNotification(e, notifiers, w.notify)
    case CustomHook(_) => HookResult([], w.custom)
  }

  /** Constructing the hook twice over the same directory is the same as once. */
  lemma NewScreenshotHookIdempotent(dir: string, dirs: set<string>, mkdir1: Outcome, mkdir2: Outcome)
    requires NewScreenshotHook(dir, dirs, mkdir1).hook.Ok?
    ensures NewScreenshotHook(dir, NewScreenshotHook(dir, dirs, mkdir1).dirs, mkdir2)
         == NewScreenshotHook(dir, dirs, mkdir1)
  {
  }

  /** The screenshot hook ignores the exception and the notifier list. */
  lemma ScreenshotIgnoresErrorAndNotifiers(dir: string, e1: Exc, e2: Exc, driver: Driver,
                                           ns1: seq<Notifier>, ns2: seq<Notifier>, w: HookWorld)
    requires Valid(w.now)
    ensures Handle(ScreenshotHook(dir), e1, driver, ns1, w) == Handle(ScreenshotHook(dir), e2, driver, ns2, w)
  {
  }

  /** The notification hook does not use the driver: absent or present, it behaves the same. */
  lemma NotificationIgnoresDriver(e: Exc, d1: Driver, d2: Driver, ns: seq<Notifier>, w: HookWorld)
    requires |w.notify| == |ns|
    ensures Handle(NotificationHook, e, d1, ns, w) == Handle(NotificationHook, e, d2, ns, w)
  {
  }

  /**
   When every notifier is a Telegram one whose post at worst failed at the
   request level, the notification hook reaches every notifier and returns.
   */
  lemma TelegramFanoutCompletes(e: Exc, ts: seq<TelegramNotifier>, posts: seq<PostOutcome>)
    requires |posts| == |ts|
    requires forall k :: 0 <= k < |posts| ==> !posts[k].OtherError?
    ensures var ns := seq(|ts|, k requires 0 <= k < |ts| => Telegram(ts[k]));
            var outs := seq(|ts|, k requires 0 <= k < |ts| => Notify(ts[k], ErrorMessage(e), posts[k]).outcome);
            var r := HandleNotification(e, ns, outs);
            r.outcome == Returns && |r.effects| == |ts|
  {
  }
}
