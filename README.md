# Page-automation controllers: route-gated refresh and play/pause fullscreen mirror

This project models the two stateful user scripts of the repository and proves their
guard-driven promises in Dafny.

- **Forum auto-refresh** (`04/main.user.js`, module `AutoRefresh`). The script holds one
  nullable recurring-timer handle. While the single-page application is on its home
  route (`"/"` or `""`), a timer clicks the refresh button every 30 000 ms. On any other
  route the timer is cleared. Starting and stopping are guarded, so at most one timer is
  ever live. The button lookup tries the button labelled "刷新" first. If that is absent
  it tries the icon-button class selector. A click happens only when a button is found.
  Otherwise the script warns.
  The timer logic is specified on values (`Started`, `Stopped`, `Toggled`, `Navigate`).
  Those functions carry the lemmas. The class `RefreshController` holds the mutable
  `refreshTimer` field plus ghost counters of created and cleared timers and a ghost
  trace of timer events. Its methods are proved against the value-level functions.
- **Video fullscreen mirror** (`03/main.js`, module `WebFullscreen`). Once the player
  container, the mirror element and the web-fullscreen button are all present, the
  script remembers whether the player is paused (`wasPaused`). It reacts to
  class-attribute mutations of the container. On a genuine paused/playing transition it
  clicks the fullscreen button when fullscreen disagrees with the policy "playing ⇒
  fullscreen, paused ⇒ not fullscreen". At start-up it runs a one-sided correction: it
  enters fullscreen when playing, and never exits. The decisions are specified on
  values (`StateChange`, `InitialCheck`, `Batch`). The classes `PauseObserver` and
  `Loader` hold `wasPaused`, the click count and the pending readiness retry.

The page is an input everywhere. These facts are method parameters:
- the current path;
- what each selector finds;
- whether the player is paused;
- whether it is in web fullscreen;
- which elements are present.

The scripts' effects are outputs: the buttons clicked, the warning, and the timer
events issued.

## Model

| member | source | states |
|---|---|---|
| `AutoRefresh.IsHomePage` | 04/main.user.js:65-68 | the home route is `"/"` or `""`: exactly the paths of at most one character, all of them slashes |
| `AutoRefresh.FindRefreshButton` | 04/main.user.js:30-35 | the labelled button when present, otherwise the class-selector button; nothing only when both lookups fail |
| `AutoRefresh.ClickRefreshButton` | 04/main.user.js:48-56 | exactly one click on the found button and no warning; no click and a warning when no button is found |
| `AutoRefresh.Started` | 04/main.user.js:81-87 | with a timer already held, or off the home route, nothing changes and no timer is created; otherwise exactly one timer with period 30 000 ms is created; live-timer count afterwards matches the held handle |
| `AutoRefresh.Stopped` | 04/main.user.js:99-105 | afterwards no timer is held; a held timer is cleared exactly once; with none it is a no-op; zero live timers remain |
| `AutoRefresh.Toggled` | 04/main.user.js:119-125 | afterwards a timer is held iff the path is `"/"` or `""` (the home-page test of lines 65-68); at most one timer event, none when the state already fits |
| `AutoRefresh.ToggleIdempotent` | 04/main.user.js:119-125 | a second check with the same path issues no timer event and keeps the state |
| `AutoRefresh.Navigate` | 04/main.user.js:128-140 | after any run of checks a timer is held iff the last path read is home; an empty run changes nothing; each check issues at most one timer event |
| `AutoRefresh.NavigateLiveBounded` | 04/main.user.js:81-125 | over any run of route changes the live-timer count is 0 or 1 at every point of the event trace, and 1 at the end exactly when a timer is held |
| `AutoRefresh.NavigateHomeTopicHome` | 04/main.user.js:128-140 | paths `"/"`, `"/t/1"`, `"/"` from a clean start create a timer, clear it, create one again (two creations, one clear) |
| `AutoRefresh.RefreshController.constructor` | 04/main.user.js:127-128 | starts with no handle (line 18) and runs the initial check: a timer is held iff the start path is home |
| `AutoRefresh.RefreshController.StartAutoRefresh` | 04/main.user.js:81-87 | keeps at most one live timer; a held handle or a non-home path leaves the state and the counters unchanged; otherwise a 30 000 ms timer is held and one creation is counted |
| `AutoRefresh.RefreshController.StopAutoRefresh` | 04/main.user.js:99-105 | leaves `refreshTimer` null; a held timer is counted as cleared; with none the trace is unchanged |
| `AutoRefresh.RefreshController.CheckAndToggleRefresh` | 04/main.user.js:119-125 | a timer is held afterwards iff the path is home; the new state and trace are those of `Toggled`; an unchanged classification changes nothing |
| `AutoRefresh.RefreshController.OnNavigations` | 04/main.user.js:130-140 | handling each route change with the check yields the state and trace of `Navigate`; the created and cleared counters grow by the creations and clears in that trace; the at-most-one-timer invariant is kept throughout |
| `WebFullscreen.StateChange` | 03/main.js:29-49 | unchanged paused state: no click, `wasPaused` kept; on a transition: `wasPaused` takes the new state, and one click happens exactly when fullscreen disagrees with the policy, after which the policy holds |
| `WebFullscreen.InitialCheck` | 03/main.js:52-60 | clicks exactly when playing and not fullscreen; never when paused, even in fullscreen; a playing player ends up in policy |
| `WebFullscreen.SecondNoticeIsNoOp` | 03/main.js:34-35 | after a transition is recorded, a second notification reading the same paused state does nothing |
| `WebFullscreen.Batch` | 03/main.js:63-72 | the observer callback over one batch: an empty batch does nothing, and a batch never clicks more often than it has records |
| `WebFullscreen.BatchClicksBoundedByTransitions` | 03/main.js:63-72 | a mutation batch clicks at most once per genuine paused/playing transition among its class changes, and remembers the last paused state it read |
| `WebFullscreen.SteadyBatchIsNoOp` | 03/main.js:63-72 | a batch whose class changes all read the remembered paused state clicks nothing and keeps `wasPaused` |
| `WebFullscreen.FilterIrrelevant` | 03/main.js:63-72 | records that are not `"attributes"` changes of `"class"` never reach the state-change handler: any batch, mixed or not, has the result of its class changes alone |
| `WebFullscreen.IgnoredRecordsAreNoOp` | 03/main.js:65-68 | a batch with no class change reads no paused state and does nothing |
| `WebFullscreen.PauseObserver.constructor` | 03/main.js:26 | `wasPaused` starts as the container's paused state, with no clicks |
| `WebFullscreen.PauseObserver.HandleStateChange` | 03/main.js:29-49 | updates `wasPaused` and clicks exactly as `StateChange` decides, counting the click |
| `WebFullscreen.PauseObserver.CheckInitialFullscreen` | 03/main.js:52-60 | clicks exactly as `InitialCheck` decides and leaves `wasPaused` alone |
| `WebFullscreen.PauseObserver.OnMutations` | 03/main.js:63-72 | processes a batch in order, each class change against the latest `wasPaused`, ending in the state and click count of `Batch` |
| `WebFullscreen.Ready` | 03/main.js:85-93 | the readiness test holds exactly when all three required elements (player container, mirror element, fullscreen button) are found |
| `WebFullscreen.Loader.constructor` | 03/main.js:102-106 | start-up schedules the first readiness check, with no observer yet |
| `WebFullscreen.Loader.InitObserver` | 03/main.js:84-98 | without all three elements, only another retry is scheduled; with them, the observer is created once from the current paused state, the initial correction runs, and no further retry is scheduled |

## Left out

- DOM access (`querySelector`, `classList`, `.click()`) is not modelled. What the
  selectors find and the class-derived facts (paused, fullscreen) are parameters. The
  clicks are results or a ghost click count.
- The effect of a click on the page is not modelled. Each notification reads the
  fullscreen state afresh as an input. `AfterClick` only states the intended effect that
  the policy lemmas speak of.
- Browser timers are not modelled in real time: `setInterval`, `clearInterval`, the
  50 ms navigation-settle delay and the 500 ms readiness retry delay. A timer is a held
  handle `Timer(periodMs)` plus ghost counters and an event trace.
- Timer ticks are not modelled as a scheduled sequence. `ClickRefreshButton` models one
  tick's callback.
- `setInterval` handles are positive integers, so the script's truthiness test
  `if (refreshTimer)` is modelled as "a handle is held".
- The readiness retry chain of `initObserver` is unbounded and is not modelled. A
  single readiness step is modelled (`Loader.InitObserver`).
- `Loader.InitObserver` requires a pending retry. In the script, initObserver is only
  ever reached through the start-up call or a scheduled retry, and a successful call
  schedules nothing.
- Each route change runs its check 50 ms later, against the path current when the
  check fires (04/main.user.js:134, 139). `OnNavigations` takes the paths these delayed
  checks read, in firing order, not the route changes themselves.
- Event wiring becomes the external calls `OnNavigations` and `OnMutations`. This covers
  the patched `history.pushState`, the `popstate` listener, the `MutationObserver`
  registration with its attribute filter, and the `DOMContentLoaded`/`readyState`
  start-up.
- Console logging is not modelled.
- The empty `app?.history` block (04/main.user.js:144-146) is not modelled; it does
  nothing.
- 04/main.js is not part of this model. It only registers an unconditional timer on
  `load`, and its lookup and click helpers are the same as 04/main.user.js:30-56.
- The refresh interval is the constant `30 * 1000` ms (04/main.user.js:19,
  `AutoRefresh.RefreshIntervalMs`); the script has no setting for it.
