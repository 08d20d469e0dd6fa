/** The forum auto-refresh user script: while the single-page application shows its
    home route, a recurring timer clicks the page's refresh button every 30 seconds;
    on any other route the timer is stopped.

    The script owns one nullable timer handle. Starting and stopping are guarded so
    that at most one recurring timer is ever live. Route changes reach the script as
    external events, each of which re-runs the check against the current path. */
module AutoRefresh {

  import opened Wrappers

  /** The refresh period in milliseconds (30 seconds), a constant of the script. */
  const RefreshIntervalMs: nat := 30 * 1000

  /** The forum's home route: "/" and, after some history.pushState calls, "".
      Equivalently: the paths of at most one character, all of them slashes. */
  function IsHomePage(path: string): (home: bool)
    ensures home <==> |path| <= 1 && forall i | 0 <= i < |path| :: path[i] == '/'
  {
    path == "/" || path == ""
  }

  // ---------------------------------------------------------------------------
  // Refresh-button lookup and click
  // ---------------------------------------------------------------------------

  /** A reference to a button element of the host page. */
  datatype Button = Button(id: nat)

  /** The lookup returns the button labelled "刷新" when the page has one, and otherwise
      the button found by the icon-button class selector, and otherwise nothing.
      `labelled` and `styled` are what the two selectors find. */
  function FindRefreshButton(labelled: Option<Button>, styled: Option<Button>): (r: Option<Button>)
    ensures labelled.Some? ==> r == labelled
    ensures labelled.None? ==> r == styled
    ensures r.None? <==> labelled.None? && styled.None?
    ensures r.Some? ==> r == labelled || r == styled
  {
    if labelled.Some? then labelled else styled
  }

  /** One refresh attempt: the buttons it clicks (in order) and whether it warned
      that no button was found. */
  method ClickRefreshButton(labelled: Option<Button>, styled: Option<Button>)
    returns (clicks: seq<Button>, warned: bool)
    ensures |clicks| <= 1
    ensures warned <==> clicks == []
    ensures FindRefreshButton(labelled, styled).Some? ==> clicks == [FindRefreshButton(labelled, styled).value]
    ensures FindRefreshButton(labelled, styled).None? ==> warned
    ensures labelled.None? && styled.None? ==> warned
  {
    var button := FindRefreshButton(labelled, styled);
    if button.Some? {
      clicks, warned := [button.value], false;
    } else {
      clicks, warned := [], true;
    }
  }

  // ---------------------------------------------------------------------------
  // Timer lifecycle, as a specification on values
  // ---------------------------------------------------------------------------

  /** What the script asks of the browser's timer facility. */
  datatype TimerEvent = Created(periodMs: nat) | Cleared

  /** The controller's abstract state after an operation (is a timer held?) and the
      timer events that operation issued. */
  datatype Toggle = Toggle(running: bool, events: seq<TimerEvent>)

  /** Timers created by a sequence of timer events. */
  function NumCreated(events: seq<TimerEvent>): nat
  {
    if events == [] then 0
    else (if events[0].Created? then 1 else 0) + NumCreated(events[1..])
  }

  /** Timers cleared by a sequence of timer events. */
  function NumCleared(events: seq<TimerEvent>): nat
  {
    if events == [] then 0
    else (if events[0].Cleared? then 1 else 0) + NumCleared(events[1..])
  }

  /** Net change in the number of live timers caused by a sequence of timer events. */
  function Delta(events: seq<TimerEvent>): int
  {
    NumCreated(events) - NumCleared(events)
  }

  /** Live timers after `events`, starting from a state that holds a timer iff `running`. */
  function LiveTimers(running: bool, events: seq<TimerEvent>): int
  {
    (if running then 1 else 0) + Delta(events)
  }

  /** startAutoRefresh: nothing when a timer is already held, nothing off the home
      route, and otherwise exactly one new timer with the 30-second period. */
  function Started(running: bool, path: string): (t: Toggle)
    ensures running ==> t == Toggle(running, [])
    ensures !IsHomePage(path) ==> t == Toggle(running, [])
    ensures !running && IsHomePage(path) ==> t == Toggle(true, [Created(RefreshIntervalMs)])
    ensures LiveTimers(running, t.events) == (if t.running then 1 else 0)
  {
    if running then Toggle(running, [])
    else if !IsHomePage(path) then Toggle(running, [])
    else
      var e := [Created(RefreshIntervalMs)];
      assert e[1..] == [];
      assert NumCreated(e) == 1 && NumCleared(e) == 0;
      Toggle(true, e)
  }

  /** stopAutoRefresh: a held timer is cleared and dropped; with none it is a no-op. */
  function Stopped(running: bool): (t: Toggle)
    ensures !t.running
    ensures running ==> t.events == [Cleared]
    ensures !running ==> t.events == []
    ensures LiveTimers(running, t.events) == 0
  {
    if running then Toggle(false, [Cleared]) else Toggle(false, [])
  }

  /** checkAndToggleRefresh: afterwards a timer is held exactly when the path is home;
      at most one timer event is issued, and none when the state already fits. */
  function Toggled(running: bool, path: string): (t: Toggle)
    ensures t.running <==> IsHomePage(path)
    ensures t.running == running ==> t.events == []
    ensures t.running && !running ==> t.events == [Created(RefreshIntervalMs)]
    ensures !t.running && running ==> t.events == [Cleared]
    ensures LiveTimers(running, t.events) == (if t.running then 1 else 0)
  {
    if IsHomePage(path) then Started(running, path) else Stopped(running)
  }

  /** A run of checkAndToggleRefresh calls, each on the path it reads. A timer is held
      at the end exactly when the last path read is home, and each check issues at
      most one timer event. */
  function Navigate(running: bool, paths: seq<string>): (t: Toggle)
    ensures paths == [] ==> t == Toggle(running, [])
    ensures paths != [] ==> (t.running <==> IsHomePage(paths[|paths| - 1]))
    ensures |t.events| <= |paths|
  {
    if paths == [] then Toggle(running, [])
    else
      var before := Navigate(running, paths[..|paths| - 1]);
      var last := Toggled(before.running, paths[|paths| - 1]);
      Toggle(last.running, before.events + last.events)
  }

  lemma {:induction false} CountsAppend(a: seq<TimerEvent>, b: seq<TimerEvent>)
    ensures NumCreated(a + b) == NumCreated(a) + NumCreated(b)
    ensures NumCleared(a + b) == NumCleared(a) + NumCleared(b)
    ensures Delta(a + b) == Delta(a) + Delta(b)
  {
    if a == [] {
      assert a + b == b;
    } else {
      assert (a + b)[1..] == a[1..] + b;
      CountsAppend(a[1..], b);
    }
  }

  /** Checking twice with the same path is the same as checking once: the second
      check issues no timer event and keeps the state. */
  lemma ToggleIdempotent(running: bool, path: string)
    ensures Toggled(Toggled(running, path).running, path) == Toggle(Toggled(running, path).running, [])
  {
  }

  /** At-most-one-timer: over any run of route changes, at every point of the issued
      timer events the number of live timers is 0 or 1, and at the end it is 1
      exactly when a timer is held. */
  lemma {:induction false} NavigateLiveBounded(running: bool, paths: seq<string>)
    ensures LiveTimers(running, Navigate(running, paths).events) == (if Navigate(running, paths).running then 1 else 0)
    ensures forall k :: 0 <= k <= |Navigate(running, paths).events| ==>
              0 <= LiveTimers(running, Navigate(running, paths).events[..k]) <= 1
  {
    var t := Navigate(running, paths);
    if paths == [] {
      forall k | 0 <= k <= |t.events|
        ensures 0 <= LiveTimers(running, t.events[..k]) <= 1
      {
        assert t.events[..k] == [];
      }
    } else {
      var init := paths[..|paths| - 1];
      var before := Navigate(running, init);
      var last := Toggled(before.running, paths[|paths| - 1]);
      NavigateLiveBounded(running, init);
      assert t.events == before.events + last.events;
      CountsAppend(before.events, last.events);
      forall k | 0 <= k <= |t.events|
        ensures 0 <= LiveTimers(running, t.events[..k]) <= 1
      {
        if k <= |before.events| {
          assert t.events[..k] == before.events[..k];
        } else {
          assert k == |t.events|;
          assert t.events[..k] == t.events;
        }
      }
    }
  }

  /** Home, then a topic page, then home again: two timers are created and one is
      cleared, in that order, and a timer is held at the end. */
  lemma NavigateHomeTopicHome()
    ensures Navigate(false, ["/", "/t/1", "/"])
         == Toggle(true, [Created(RefreshIntervalMs), Cleared, Created(RefreshIntervalMs)])
  {
    assert ["/", "/t/1", "/"][..2] == ["/", "/t/1"];
    assert ["/", "/t/1"][..1] == ["/"];
    assert ["/"][..0] == [];
  }

  // ---------------------------------------------------------------------------
  // The controller with its mutable timer handle
  // ---------------------------------------------------------------------------

  /** A recurring timer as the script holds it; its callback is always the refresh click. */
  datatype Timer = Timer(periodMs: nat)

  class RefreshController {
    /** The handle returned by setInterval, or null. A real handle is never falsy. */
    var refreshTimer: Option<Timer>

    /** Timers created and cleared so far, and the timer events in order. */
    ghost var created: nat
    ghost var cleared: nat
    ghost var events: seq<TimerEvent>

    /** At most one live timer, and it is the one whose handle is held. */
    ghost predicate Valid()
      reads this
    {
      created == NumCreated(events) &&
      cleared == NumCleared(events) &&
      created - cleared == (if refreshTimer.Some? then 1 else 0) &&
      (refreshTimer.Some? ==> refreshTimer.value.periodMs == RefreshIntervalMs)
    }

    predicate Running()
      reads this
    {
      refreshTimer.Some?
    }

    /** Script start: no timer, then the initial check against the current path. */
    constructor (path: string)
      ensures Valid()
      ensures Running() <==> IsHomePage(path)
      ensures events == Toggled(false, path).events
      ensures created == (if IsHomePage(path) then 1 else 0) && cleared == 0
    {
      refreshTimer := None;
      created, cleared, events := 0, 0, [];
      new;
      CheckAndToggleRefresh(path);
    }

    method StartAutoRefresh(path: string)
      requires Valid()
      modifies this
      ensures Valid()
      ensures old(refreshTimer).Some? || !IsHomePage(path) ==>
                refreshTimer == old(refreshTimer) && created == old(created) && events == old(events)
      ensures old(refreshTimer).None? && IsHomePage(path) ==>
                refreshTimer == Some(Timer(RefreshIntervalMs)) && created == old(created) + 1
      ensures cleared == old(cleared)
      ensures Running() == Started(old(Running()), path).running
      ensures events == old(events) + Started(old(Running()), path).events
    {
      if refreshTimer.Some? {
        return;
      }
      if !IsHomePage(path) {
        return;
      }
      refreshTimer := Some(Timer(RefreshIntervalMs));
      created := created + 1;
      CountsAppend(events, [Created(RefreshIntervalMs)]);
      events := events + [Created(RefreshIntervalMs)];
    }

    method StopAutoRefresh()
      requires Valid()
      modifies this
      ensures Valid()
      ensures refreshTimer == None
      ensures created == old(created)
      ensures old(refreshTimer).Some? ==> cleared == old(cleared) + 1
      ensures old(refreshTimer).None? ==> cleared == old(cleared) && events == old(events)
      ensures events == old(events) + Stopped(old(Running())).events
    {
      if refreshTimer.Some? {
        refreshTimer := None;
        cleared := cleared + 1;
        CountsAppend(events, [Cleared]);
        events := events + [Cleared];
      }
    }

    method CheckAndToggleRefresh(path: string)
      requires Valid()
      modifies this
      ensures Valid()
      ensures Running() <==> IsHomePage(path)
      ensures Running() == Toggled(old(Running()), path).running
      ensures events == old(events) + Toggled(old(Running()), path).events
      ensures old(Running()) == Running() ==> refreshTimer == old(refreshTimer) && events == old(events)
      ensures created == old(created) + (if Running() && !old(Running()) then 1 else 0)
      ensures cleared == old(cleared) + (if !Running() && old(Running()) then 1 else 0)
    {
      if IsHomePage(path) {
        StartAutoRefresh(path);
      } else {
        StopAutoRefresh();
      }
    }

    /** A run of route changes (history.pushState or back/forward navigation). Each
        schedules checkAndToggleRefresh 50 ms later, and that check reads the path
        current when it fires, which after rapid navigation may already be a later
        one. `paths` are the paths these delayed checks read, in the order they fire. */
    method OnNavigations(paths: seq<string>)
      requires Valid()
      modifies this
      ensures Valid()
      ensures Running() == Navigate(old(Running()), paths).running
      ensures events == old(events) + Navigate(old(Running()), paths).events
      ensures created == old(created) + NumCreated(Navigate(old(Running()), paths).events)
      ensures cleared == old(cleared) + NumCleared(Navigate(old(Running()), paths).events)
    {
      var i := 0;
      while i < |paths|
        invariant 0 <= i <= |paths|
        invariant Valid()
        invariant Running() == Navigate(old(Running()), paths[..i]).running
        invariant events == old(events) + Navigate(old(Running()), paths[..i]).events
      {
        assert paths[..i + 1][..i] == paths[..i];
        CheckAndToggleRefresh(paths[i]);
        i := i + 1;
      }
      assert paths[..i] == paths;
      CountsAppend(old(events), Navigate(old(Running()), paths).events);
    }
  }

  /** A client of the controller: start on a topic page, then go home, to a topic and
      home again. Two timers are created, one is cleared, and one is live at the end. */
  method HomeTopicHomeScenario()
  {
    var c := new RefreshController("/t/1");
    assert c.created == 0 && c.cleared == 0 && c.events == [];
    c.OnNavigations(["/", "/t/1", "/"]);
    NavigateHomeTopicHome();
    assert c.events == [Created(RefreshIntervalMs), Cleared, Created(RefreshIntervalMs)];
    assert c.created == 2 && c.cleared == 1 && c.Running();
  }
}
