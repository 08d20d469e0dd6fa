/** The video-page user script that keeps the player's web-fullscreen mode in step with
    playback: playing means web fullscreen, paused means not.

    The script waits until the player container, the mirror element and the
    web-fullscreen button are all on the page. It then remembers whether the player
    was paused, watches the container's class attribute, and on every genuine
    paused/playing transition clicks the fullscreen button when the fullscreen state
    disagrees with that policy. A one-sided initial correction enters fullscreen when
    the player is already playing; it never exits. The page is an input: whether the
    player is paused and whether it is in web fullscreen are read at each step, and
    the clicks the script issues are its output. */
module WebFullscreen {

  import opened Wrappers

  /** The policy the script maintains: playing ⇒ fullscreen, paused ⇒ not fullscreen. */
  predicate InPolicy(paused: bool, fullscreen: bool)
  {
    fullscreen == !paused
  }

  /** Fullscreen state after clicking the toggle button `click` times (0 or 1). */
  function AfterClick(fullscreen: bool, click: bool): bool
  {
    if click then !fullscreen else fullscreen
  }

  // ---------------------------------------------------------------------------
  // Decisions, as a specification on values
  // ---------------------------------------------------------------------------

  /** The remembered paused state after one state-change notification, and whether
      that notification clicked the fullscreen button. */
  datatype Reaction = Reaction(wasPaused: bool, click: bool)

  /** handleStateChange: with the paused state unchanged nothing happens; on a genuine
      transition the new state is remembered and the button is clicked exactly when
      the fullscreen state disagrees with the policy, which the click then restores. */
  function StateChange(wasPaused: bool, isNowPaused: bool, isFullscreen: bool): (r: Reaction)
    ensures isNowPaused == wasPaused ==> r == Reaction(wasPaused, false)
    ensures r.wasPaused == isNowPaused
    ensures isNowPaused != wasPaused ==> (r.click <==> !InPolicy(isNowPaused, isFullscreen))
    ensures isNowPaused != wasPaused ==> InPolicy(isNowPaused, AfterClick(isFullscreen, r.click))
  {
    if isNowPaused != wasPaused then
      if isNowPaused then Reaction(isNowPaused, isFullscreen)
      else Reaction(isNowPaused, !isFullscreen)
    else Reaction(wasPaused, false)
  }

  /** checkInitialFullscreen: clicks exactly when the player is playing and out of
      policy (so not fullscreen), which puts it in policy; a paused player is left
      alone, even in fullscreen. */
  function InitialCheck(isPaused: bool, isFullscreen: bool): (click: bool)
    ensures click <==> !isPaused && !InPolicy(isPaused, isFullscreen)
    ensures isPaused ==> !click
    ensures !isPaused ==> InPolicy(isPaused, AfterClick(isFullscreen, click))
  {
    !isPaused && !isFullscreen
  }

  /** A second notification that reads the same paused state does nothing, whatever
      the fullscreen state then is. */
  lemma SecondNoticeIsNoOp(wasPaused: bool, isNowPaused: bool, fullscreen1: bool, fullscreen2: bool)
    ensures StateChange(StateChange(wasPaused, isNowPaused, fullscreen1).wasPaused, isNowPaused, fullscreen2)
         == Reaction(isNowPaused, false)
  {
  }

  // ---------------------------------------------------------------------------
  // Mutation batches
  // ---------------------------------------------------------------------------

  datatype MutationKind = Attributes | CharacterData | ChildList

  /** The fields of a mutation record that the observer callback inspects. */
  datatype MutationRecord = MutationRecord(kind: MutationKind, attributeName: Option<string>)

  /** One record of a batch together with the page as handleStateChange reads it when
      that record is processed. */
  datatype Notice = Notice(record: MutationRecord, paused: bool, fullscreen: bool)

  /** Only a change of the "class" attribute reaches handleStateChange. */
  predicate IsClassChange(m: MutationRecord)
  {
    m.kind == Attributes && m.attributeName == Some("class")
  }

  /** The remembered paused state after a batch and the number of clicks it issued. */
  datatype BatchResult = BatchResult(wasPaused: bool, clicks: nat)

  /** The observer callback over one batch, in order, each class change evaluated
      against the paused state remembered after the records before it. */
  function Batch(wasPaused: bool, notices: seq<Notice>): (r: BatchResult)
    ensures notices == [] ==> r == BatchResult(wasPaused, 0)
    ensures r.clicks <= |notices|
    decreases |notices|
  {
    if notices == [] then BatchResult(wasPaused, 0)
    else
      var n := notices[0];
      var step := if IsClassChange(n.record) then StateChange(wasPaused, n.paused, n.fullscreen)
                  else Reaction(wasPaused, false);
      var rest := Batch(step.wasPaused, notices[1..]);
      BatchResult(rest.wasPaused, rest.clicks + (if step.click then 1 else 0))
  }

  /** The paused states read at the class-change records of a batch, in order. */
  function ClassChangePauses(notices: seq<Notice>): seq<bool>
  {
    if notices == [] then []
    else (if IsClassChange(notices[0].record) then [notices[0].paused] else [])
         + ClassChangePauses(notices[1..])
  }

  /** Genuine transitions in a run of paused readings that starts from `wasPaused`. */
  function Transitions(wasPaused: bool, pauses: seq<bool>): nat
    decreases |pauses|
  {
    if pauses == [] then 0
    else (if pauses[0] != wasPaused then 1 else 0) + Transitions(pauses[0], pauses[1..])
  }

  /** The last reading of a run, or `wasPaused` for an empty run. */
  function LastOr(wasPaused: bool, pauses: seq<bool>): bool
  {
    if pauses == [] then wasPaused else pauses[|pauses| - 1]
  }

  /** A batch issues at most one click per genuine paused/playing transition among its
      class changes (never one per notification), and remembers the last paused state
      it read. */
  lemma {:induction false} BatchClicksBoundedByTransitions(wasPaused: bool, notices: seq<Notice>)
    ensures Batch(wasPaused, notices).clicks <= Transitions(wasPaused, ClassChangePauses(notices))
    ensures Batch(wasPaused, notices).wasPaused == LastOr(wasPaused, ClassChangePauses(notices))
    decreases |notices|
  {
    if notices != [] {
      var n := notices[0];
      var rest := notices[1..];
      if IsClassChange(n.record) {
        var step := StateChange(wasPaused, n.paused, n.fullscreen);
        BatchClicksBoundedByTransitions(step.wasPaused, rest);
        var ps := ClassChangePauses(rest);
        assert ClassChangePauses(notices) == [n.paused] + ps;
        assert ([n.paused] + ps)[1..] == ps;
      } else {
        BatchClicksBoundedByTransitions(wasPaused, rest);
        assert ClassChangePauses(notices) == ClassChangePauses(rest);
      }
    }
  }

  /** Steady state: when every class change of a batch reads the remembered paused
      state, the batch clicks nothing and remembers the same state. */
  lemma {:induction false} SteadyBatchIsNoOp(wasPaused: bool, notices: seq<Notice>)
    requires forall i :: 0 <= i < |notices| && IsClassChange(notices[i].record) ==> notices[i].paused == wasPaused
    ensures Batch(wasPaused, notices) == BatchResult(wasPaused, 0)
  {
    if notices != [] {
      SteadyBatchIsNoOp(wasPaused, notices[1..]);
    }
  }

  /** The class-change records of a batch, in order, with what was read at each. */
  function ClassChangesOnly(notices: seq<Notice>): seq<Notice>
  {
    if notices == [] then []
    else (if IsClassChange(notices[0].record) then [notices[0]] else [])
         + ClassChangesOnly(notices[1..])
  }

  /** Records other than class changes, and whatever the page showed when they were
      processed, have no effect on a batch: it behaves as its class changes alone. */
  lemma {:induction false} FilterIrrelevant(wasPaused: bool, notices: seq<Notice>)
    ensures Batch(wasPaused, notices) == Batch(wasPaused, ClassChangesOnly(notices))
    decreases |notices|
  {
    if notices != [] {
      var n := notices[0];
      var rest := notices[1..];
      if IsClassChange(n.record) {
        var step := StateChange(wasPaused, n.paused, n.fullscreen);
        FilterIrrelevant(step.wasPaused, rest);
        var kept := ClassChangesOnly(rest);
        assert ClassChangesOnly(notices) == [n] + kept;
        assert ([n] + kept)[0] == n && ([n] + kept)[1..] == kept;
      } else {
        FilterIrrelevant(wasPaused, rest);
        assert ClassChangesOnly(notices) == ClassChangesOnly(rest);
      }
    }
  }

  /** A batch with no class change does nothing. */
  lemma {:induction false} IgnoredRecordsAreNoOp(wasPaused: bool, notices: seq<Notice>)
    requires forall i :: 0 <= i < |notices| ==> !IsClassChange(notices[i].record)
    ensures ClassChangePauses(notices) == []
    ensures Batch(wasPaused, notices) == BatchResult(wasPaused, 0)
  {
    if notices != [] {
      IgnoredRecordsAreNoOp(wasPaused, notices[1..]);
    }
  }

  // ---------------------------------------------------------------------------
  // The running observer
  // ---------------------------------------------------------------------------

  /** The state captured by observePauseState once the page is ready. */
  class PauseObserver {
    /** The paused state seen at the last genuine transition (or at setup). */
    var wasPaused: bool
    /** Clicks on the web-fullscreen button issued so far. */
    ghost var clicks: nat

    /** Setup remembers whether the player container is paused. */
    constructor (paused: bool)
      ensures wasPaused == paused && clicks == 0
    {
      wasPaused := paused;
      clicks := 0;
    }

    method HandleStateChange(isNowPaused: bool, isFullscreen: bool) returns (clicked: bool)
      modifies this
      ensures wasPaused == isNowPaused
      ensures old(wasPaused) == isNowPaused ==> !clicked
      ensures old(wasPaused) != isNowPaused ==> (clicked <==> !InPolicy(isNowPaused, isFullscreen))
      ensures Reaction(wasPaused, clicked) == StateChange(old(wasPaused), isNowPaused, isFullscreen)
      ensures clicks == old(clicks) + (if clicked then 1 else 0)
    {
      clicked := false;
      if isNowPaused != wasPaused {
        wasPaused := isNowPaused;
        if isNowPaused {
          if isFullscreen {
            clicked := true;
          }
        } else {
          if !isFullscreen {
            clicked := true;
          }
        }
      }
      if clicked {
        clicks := clicks + 1;
      }
    }

    method CheckInitialFullscreen(isPaused: bool, isFullscreen: bool) returns (clicked: bool)
      modifies this
      ensures wasPaused == old(wasPaused)
      ensures clicked == InitialCheck(isPaused, isFullscreen)
      ensures clicks == old(clicks) + (if clicked then 1 else 0)
    {
      clicked := !isPaused && !isFullscreen;
      if clicked {
        clicks := clicks + 1;
      }
    }

    /** The mutation observer's callback for one batch of records. */
    method OnMutations(notices: seq<Notice>)
      modifies this
      ensures wasPaused == Batch(old(wasPaused), notices).wasPaused
      ensures clicks == old(clicks) + Batch(old(wasPaused), notices).clicks
    {
      var i := 0;
      while i < |notices|
        invariant 0 <= i <= |notices|
        invariant Batch(wasPaused, notices[i..]).wasPaused == Batch(old(wasPaused), notices).wasPaused
        invariant clicks + Batch(wasPaused, notices[i..]).clicks == old(clicks) + Batch(old(wasPaused), notices).clicks
      {
        var n := notices[i];
        assert notices[i..][1..] == notices[i + 1..];
        if n.record.kind == Attributes && n.record.attributeName == Some("class") {
          var _ := HandleStateChange(n.paused, n.fullscreen);
        }
        i := i + 1;
      }
    }
  }

  // ---------------------------------------------------------------------------
  // Readiness
  // ---------------------------------------------------------------------------

  /** What the readiness check finds on the page, and the player's state there. */
  datatype Page = Page(playerPresent: bool, mirrorPresent: bool, buttonPresent: bool,
                       paused: bool, fullscreen: bool)

  /** The three elements the script needs: player container, mirror element and
      web-fullscreen button, as found or not. */
  function RequiredElements(p: Page): seq<bool>
  {
    [p.playerPresent, p.mirrorPresent, p.buttonPresent]
  }

  /** The readiness test of initObserver: satisfied when every required element is
      found, and not while any one of them is missing. */
  function Ready(p: Page): (ready: bool)
    ensures ready <==> false !in RequiredElements(p)
    ensures ready <==> forall found | found in RequiredElements(p) :: found
  {
    p.playerPresent && p.mirrorPresent && p.buttonPresent
  }

  /** The script from start-up on: a pending readiness retry until the page is ready,
      then the observer. */
  class Loader {
    var observer: PauseObserver?
    /** A call of initObserver is scheduled (the first at start-up, then every retry). */
    var retryPending: bool
    ghost var retries: nat

    ghost predicate Valid()
      reads this
    {
      retryPending <==> observer == null
    }

    constructor ()
      ensures Valid() && retryPending && observer == null && retries == 0
    {
      observer := null;
      retryPending := true;
      retries := 0;
    }

    /** One initObserver call. Without all three elements it only schedules the next
        retry. With them it sets up the observer, which remembers the current paused
        state, runs the initial correction, and schedules no further call, so the
        observer is set up exactly once. */
    method InitObserver(page: Page) returns (initialClick: bool)
      requires Valid() && retryPending
      modifies this
      ensures Valid()
      ensures !Ready(page) ==> observer == null && retryPending && retries == old(retries) + 1 && !initialClick
      ensures Ready(page) ==> !retryPending && retries == old(retries)
      ensures Ready(page) ==> fresh(observer) && observer.wasPaused == page.paused
      ensures Ready(page) ==> initialClick == InitialCheck(page.paused, page.fullscreen)
      ensures Ready(page) ==> observer.clicks == (if initialClick then 1 else 0)
    {
      initialClick := false;
      if Ready(page) {
        var o := new PauseObserver(page.paused);
        initialClick := o.CheckInitialFullscreen(page.paused, page.fullscreen);
        observer := o;
        retryPending := false;
      } else {
        retries := retries + 1;
      }
    }
  }
}
