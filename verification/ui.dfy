/** The dashboard's key handler: one key press, handled under the lock,
    updates the dashboard fields of `App`, the active runner's scroll
    position and restart flag, and sends control events to the runners'
    channels. `ViewAfterKey`, `PaneAfterKey` and `Sent` specify it;
    `HandleKey` dispatches the key to one method per match arm, and each of
    them is proved to meet the two-state predicate `KeyHandled`. */
module Ui {
  import opened Scrolling
  import opened Models

  /** A key press as the terminal reports it; `Other` stands for every key
      code the handler does not name. */
  datatype Key = Char(c: char) | Esc | Up | Down | Other

  /** The keys the handler reacts to. */
  predicate IsBound(key: Key) {
    match key
    case Char(c) => c in {'q', 'r', 's', 'n', 'p', 't', 'z', 'd', '?', 'j', 'k'}
    case Esc => true
    case Up => true
    case Down => true
    case Other => false
  }

  /** The dashboard fields of `App` that keys change. */
  datatype View = View(
    activeRunner: nat,
    hasZoomedRunner: bool,
    zoomedRunner: nat,
    shouldExit: bool,
    showTimestamps: bool,
    showHelp: bool,
    showDebug: bool)

  /** The fields of one runner that keys change. */
  datatype Pane = Pane(scroll: Scroll, shouldRestart: bool)

  /** `n`: the next pane, wrapping from the last to the first. */
  function NextPane(active: nat, count: nat): (r: nat)
    requires active < count
    ensures r < count
    ensures r == active + 1 || (active == count - 1 && r == 0)
  {
    if active == count - 1 then 0 else active + 1
  }

  /** `p`: the previous pane, wrapping from the first to the last. */
  function PrevPane(active: nat, count: nat): (r: nat)
    requires active < count
    ensures r < count
    ensures r + 1 == active || (active == 0 && r == count - 1)
  {
    if active == 0 then count - 1 else active - 1
  }

  /** `n` is the successor and `p` the predecessor modulo the number of
      panes. */
  lemma PaneCyclingIsModular(active: nat, count: nat)
    requires active < count
    ensures NextPane(active, count) == (active + 1) % count
    ensures (PrevPane(active, count) + 1) % count == active
  {
  }

  /** `p` undoes `n`. */
  lemma PrevUndoesNext(active: nat, count: nat)
    requires active < count
    ensures PrevPane(NextPane(active, count), count) == active
  {
  }

  /** `n` undoes `p`. */
  lemma NextUndoesPrev(active: nat, count: nat)
    requires active < count
    ensures NextPane(PrevPane(active, count), count) == active
  {
  }

  /** The active pane after pressing `n` `k` times. */
  function NextPaneTimes(active: nat, count: nat, k: nat): (r: nat)
    requires active < count
    ensures r < count
    decreases k
  {
    if k == 0 then active else NextPaneTimes(NextPane(active, count), count, k - 1)
  }

  /** Pressing `n` `j + k` times is pressing it `j` times, then `k` times. */
  lemma {:induction false} NextPaneTimesSplit(active: nat, count: nat, j: nat, k: nat)
    requires active < count
    ensures NextPaneTimes(active, count, j + k) == NextPaneTimes(NextPaneTimes(active, count, j), count, k)
    decreases j
  {
    if j > 0 {
      NextPaneTimesSplit(NextPane(active, count), count, j - 1, k);
    }
  }

  /** Pressing `n` moves one pane on per press, and reaches the first pane
      exactly when it has passed the last one. */
  lemma {:induction false} NextPaneTimesClimbs(active: nat, count: nat, k: nat)
    requires active < count && active + k <= count
    ensures NextPaneTimes(active, count, k) == if active + k < count then active + k else 0
    decreases k
  {
    if k > 0 {
      NextPaneTimesClimbs(NextPane(active, count), count, k - 1);
    }
  }

  /** `count` presses of `n` visit every pane once and come back. */
  lemma NextPaneFullCycle(active: nat, count: nat)
    requires active < count
    ensures NextPaneTimes(active, count, count) == active
    ensures forall k :: 0 < k < count ==> NextPaneTimes(active, count, k) != active
  {
    NextPaneTimesSplit(active, count, count - active, active);
    NextPaneTimesClimbs(active, count, count - active);
    NextPaneTimesClimbs(0, count, active);
    forall k | 0 < k < count ensures NextPaneTimes(active, count, k) != active {
      if active + k < count {
        NextPaneTimesClimbs(active, count, k);
      } else {
        NextPaneTimesSplit(active, count, count - active, k - (count - active));
        NextPaneTimesClimbs(active, count, count - active);
        NextPaneTimesClimbs(0, count, k - (count - active));
      }
    }
  }

  /** The dashboard fields after a key; `count` is the number of runners. */
  function ViewAfterKey(v: View, key: Key, count: nat): (r: View)
    requires v.activeRunner < count
    ensures r.activeRunner < count
    ensures r.zoomedRunner == v.zoomedRunner || r.zoomedRunner == v.activeRunner
  {
    if key == Char('q') then v.(shouldExit := true)
    else if key == Char('n') then v.(activeRunner := NextPane(v.activeRunner, count))
    else if key == Char('p') then v.(activeRunner := PrevPane(v.activeRunner, count))
    else if key == Char('t') then v.(showTimestamps := !v.showTimestamps)
    else if key == Char('z') then
      if v.hasZoomedRunner then v.(hasZoomedRunner := false)
      else v.(hasZoomedRunner := true, zoomedRunner := v.activeRunner)
    else if key == Char('d') then v.(showDebug := !v.showDebug)
    else if key == Char('?') then v.(showHelp := true)
    else if key == Esc then v.(showHelp := false)
    else v
  }

  /** The active runner's fields after a key: `r` and `s` set the restart
      flag, `j`/Down and `k`/Up move the scroll position within bounds. */
  function PaneAfterKey(key: Key, p: Pane): (r: Pane)
    ensures r.scroll.size == p.scroll.size
    ensures InView(p.scroll) ==> InView(r.scroll)
  {
    if key == Char('r') || key == Char('s') then p.(shouldRestart := true)
    else if key == Char('j') || key == Down then p.(scroll := ScrollDown(p.scroll))
    else if key == Char('k') || key == Up then p.(scroll := ScrollUp(p.scroll))
    else p
  }

  /** The events a key sends to runner `i`'s channel while runner `active`
      is selected. */
  function Sent(key: Key, active: nat, i: nat): (events: seq<EventType>)
    ensures |events| <= 1
    ensures events != [] ==> key == Char('q') || i == active
  {
    if key == Char('q') then [ApplicationQuit]
    else if key == Char('r') && i == active then [Restart]
    else if key == Char('s') && i == active then [Stop]
    else []
  }

  /** `t` and `d` toggle their flag: pressing either twice changes nothing. */
  lemma ToggleTwiceIsIdentity(v: View, key: Key, count: nat)
    requires v.activeRunner < count && key in {Char('t'), Char('d')}
    ensures ViewAfterKey(v, key, count).showTimestamps == (v.showTimestamps != (key == Char('t')))
    ensures ViewAfterKey(v, key, count).showDebug == (v.showDebug != (key == Char('d')))
    ensures ViewAfterKey(ViewAfterKey(v, key, count), key, count) == v
  {
  }

  /** `?` shows the help and Esc hides it; pressing either again changes
      nothing. */
  lemma HelpKeysIdempotent(v: View, key: Key, count: nat)
    requires v.activeRunner < count && key in {Char('?'), Esc}
    ensures ViewAfterKey(v, key, count).showHelp == (key == Char('?'))
    ensures ViewAfterKey(ViewAfterKey(v, key, count), key, count) == ViewAfterKey(v, key, count)
  {
  }

  /** `z` turns zoom on onto the active pane, or turns it off and leaves the
      zoomed index as it was. */
  lemma ZoomToggles(v: View, count: nat)
    requires v.activeRunner < count
    ensures var r := ViewAfterKey(v, Char('z'), count);
      r.hasZoomedRunner == !v.hasZoomedRunner &&
      (r.hasZoomedRunner ==> r.zoomedRunner == v.activeRunner) &&
      (!r.hasZoomedRunner ==> r.zoomedRunner == v.zoomedRunner) &&
      r.activeRunner == v.activeRunner
  {
  }

  /** `j`/Down never moves past the extent and `k`/Up never below zero;
      one undoes the other when it moved. */
  lemma ScrollKeysBounded(p: Pane)
    requires InView(p.scroll)
    ensures PaneAfterKey(Down, p).scroll.position <= p.scroll.size
    ensures PaneAfterKey(Char('j'), p) == PaneAfterKey(Down, p)
    ensures PaneAfterKey(Char('k'), p) == PaneAfterKey(Up, p)
    ensures p.scroll.position < p.scroll.size ==> PaneAfterKey(Up, PaneAfterKey(Down, p)) == p
    ensures 0 < p.scroll.position ==> PaneAfterKey(Down, PaneAfterKey(Up, p)) == p
  {
    if p.scroll.position < p.scroll.size {
      UpUndoesDown(p.scroll);
    }
    if 0 < p.scroll.position {
      DownUndoesUp(p.scroll);
    }
  }

  /** `r` and `s` flag the active runner only and send it exactly one
      Restart or Stop. */
  lemma RestartAndStopTargetActive(key: Key, p: Pane, active: nat, i: nat)
    requires key in {Char('r'), Char('s')}
    ensures PaneAfterKey(key, p) == p.(shouldRestart := true)
    ensures Sent(key, active, i) == if i != active then [] else if key == Char('r') then [Restart] else [Stop]
  {
  }

  /** `q` sends exactly one ApplicationQuit to every runner. */
  lemma QuitBroadcasts(active: nat, i: nat)
    ensures Sent(Char('q'), active, i) == [ApplicationQuit]
  {
  }

  /** A key the handler does not name changes nothing and sends nothing. */
  lemma UnboundKeyIsNoOp(v: View, p: Pane, key: Key, count: nat, i: nat)
    requires v.activeRunner < count && !IsBound(key)
    ensures ViewAfterKey(v, key, count) == v && PaneAfterKey(key, p) == p && Sent(key, v.activeRunner, i) == []
  {
  }

  ghost function ViewOf(app: App): View
    reads app
  {
    View(app.activeRunner, app.hasZoomedRunner, app.zoomedRunner, app.shouldExit,
         app.showTimestamps, app.showHelp, app.showDebug)
  }

  ghost function PaneOf(r: Runner): Pane
    reads r
  {
    Pane(r.ScrollState(), r.shouldRestart)
  }

  /** `q`: flag the exit and send ApplicationQuit on every runner's channel,
      in index order. */
  method Broadcast(app: App)
    requires app.Valid()
    modifies app`shouldExit, app.Channels()
    ensures app.shouldExit
    ensures forall i :: 0 <= i < |app.runners| ==>
      app.runners[i].channel.queue == old(app.runners[i].channel.queue) + [ApplicationQuit]
  {
    app.shouldExit := true;
    var i := 0;
    while i < |app.runners|
      invariant 0 <= i <= |app.runners|
      invariant app.shouldExit
      invariant forall j :: 0 <= j < i ==>
        app.runners[j].channel.queue == old(app.runners[j].channel.queue) + [ApplicationQuit]
      invariant forall j :: i <= j < |app.runners| ==>
        app.runners[j].channel.queue == old(app.runners[j].channel.queue)
    {
      var r := app.runners[i];
      assert r.channel in app.Channels();
      r.channel.Send(ApplicationQuit);
      i := i + 1;
    }
  }

  /** What one key press does to `App`, its runners and their channels:
      the dashboard fields follow `ViewAfterKey`, the active runner (as it
      was before the key) follows `PaneAfterKey`, every other runner field
      stays, and each runner's channel receives `Sent`. */
  twostate predicate KeyHandled(app: App, key: Key)
    reads app, app.runners, app.Channels()
  {
    old(app.Valid()) && old(app.activeRunner) < |old(app.runners)| &&
    app.Valid() &&
    app.runners == old(app.runners) && app.groups == old(app.groups) &&
    app.debugLines == old(app.debugLines) &&
    ViewOf(app) == ViewAfterKey(old(ViewOf(app)), key, |app.runners|) &&
    PanesStepped(app, key) && LogsKept(app) && QueuesStepped(app, key)
  }

  /** The active runner's pane follows `PaneAfterKey`; the others stay. */
  twostate predicate PanesStepped(app: App, key: Key)
    reads app, app.runners
  {
    app.runners == old(app.runners) &&
    forall i :: 0 <= i < |app.runners| ==>
      PaneOf(app.runners[i]) ==
        if i == old(app.activeRunner) then PaneAfterKey(key, old(PaneOf(app.runners[i])))
        else old(PaneOf(app.runners[i]))
  }

  /** No key changes a runner's log or lifecycle state. */
  twostate predicate LogsKept(app: App)
    reads app, app.runners
  {
    app.runners == old(app.runners) &&
    forall i :: 0 <= i < |app.runners| ==>
      app.runners[i].lines == old(app.runners[i].lines) &&
      app.runners[i].state == old(app.runners[i].state)
  }

  /** Each runner's channel receives what `Sent` says. */
  twostate predicate QueuesStepped(app: App, key: Key)
    reads app, app.Channels()
  {
    app.runners == old(app.runners) &&
    forall i :: 0 <= i < |app.runners| ==>
      app.runners[i].channel.queue == old(app.runners[i].channel.queue) + Sent(key, old(app.activeRunner), i)
  }

  /** One key press, handled under the lock. Returns whether the dashboard
      loop ends (only `q` ends it). */
  method HandleKey(app: App, key: Key) returns (exit: bool)
    requires app.Valid() && |app.runners| > 0
    modifies app, app.runners[app.activeRunner], app.Channels()
    ensures KeyHandled(app, key)
    ensures exit <==> key == Char('q')
  {
    exit := false;
    if key == Char('q') {
      PressQuit(app);
      exit := true;
    } else if key == Char('r') || key == Char('s') {
      PressRestartOrStop(app, key);
    } else if key == Char('n') {
      PressNext(app);
    } else if key == Char('p') {
      PressPrev(app);
    } else if key == Char('t') {
      PressTimestamps(app);
    } else if key == Char('z') {
      PressZoom(app);
    } else if key == Char('d') {
      PressDebug(app);
    } else if key == Char('?') {
      PressHelp(app);
    } else if key == Esc {
      PressEsc(app);
    } else if key == Char('j') || key == Down {
      PressDown(app, key);
    } else if key == Char('k') || key == Up {
      PressUp(app, key);
    } else {
      IgnoreKey(app, key);
    }
  }

  /** `q`: ask every supervisor to quit and end the dashboard loop. */
  method PressQuit(app: App)
    requires app.Valid() && |app.runners| > 0
    modifies app`shouldExit, app.Channels()
    ensures KeyHandled(app, Char('q'))
  {
    Broadcast(app);
  }

  /** `r` and `s` on the active runner. */
  method PressRestartOrStop(app: App, key: Key)
    requires app.Valid() && |app.runners| > 0 && (key == Char('r') || key == Char('s'))
    modifies app.runners[app.activeRunner], app.runners[app.activeRunner].channel
    ensures KeyHandled(app, key)
  {
    var runner := app.runners[app.activeRunner];
    FlagAndSend(runner, if key == Char('r') then Restart else Stop);
  }

  /** `j` and Down. */
  method PressDown(app: App, key: Key)
    requires app.Valid() && |app.runners| > 0 && (key == Char('j') || key == Down)
    modifies app.runners[app.activeRunner]
    ensures KeyHandled(app, key)
  {
    ScrollRunnerDown(app.runners[app.activeRunner]);
  }

  /** `k` and Up. */
  method PressUp(app: App, key: Key)
    requires app.Valid() && |app.runners| > 0 && (key == Char('k') || key == Up)
    modifies app.runners[app.activeRunner]
    ensures KeyHandled(app, key)
  {
    ScrollRunnerUp(app.runners[app.activeRunner]);
  }

  /** `r` and `s`: flag the active runner for restart and send it the event. */
  method FlagAndSend(runner: Runner, e: EventType)
    modifies runner`shouldRestart, runner.channel
    ensures runner.shouldRestart
    ensures runner.channel.queue == old(runner.channel.queue) + [e]
  {
    runner.shouldRestart := true;
    runner.channel.Send(e);
  }

  /** A key the handler does not name leaves every pane as it is. */
  lemma UnboundKeyKeepsPanes(key: Key)
    requires !IsBound(key)
    ensures forall p :: PaneAfterKey(key, p) == p
  {
  }

  /** `n`: the next pane, wrapping to the first. */
  method PressNext(app: App)
    requires app.Valid() && |app.runners| > 0
    modifies app`activeRunner
    ensures KeyHandled(app, Char('n'))
  {
    if app.activeRunner == |app.runners| - 1 {
      app.activeRunner := 0;
    } else {
      app.activeRunner := app.activeRunner + 1;
    }
  }

  /** `p`: the previous pane, wrapping to the last. */
  method PressPrev(app: App)
    requires app.Valid() && |app.runners| > 0
    modifies app`activeRunner
    ensures KeyHandled(app, Char('p'))
  {
    if app.activeRunner == 0 {
      app.activeRunner := |app.runners| - 1;
    } else {
      app.activeRunner := app.activeRunner - 1;
    }
  }

  /** `t`: show or hide the timestamps. */
  method PressTimestamps(app: App)
    requires app.Valid() && |app.runners| > 0
    modifies app`showTimestamps
    ensures KeyHandled(app, Char('t'))
  {
    app.showTimestamps := !app.showTimestamps;
  }

  /** `z`: zoom out, or zoom in on the active pane. */
  method PressZoom(app: App)
    requires app.Valid() && |app.runners| > 0
    modifies app`hasZoomedRunner, app`zoomedRunner
    ensures KeyHandled(app, Char('z'))
  {
    if app.hasZoomedRunner {
      app.hasZoomedRunner := false;
    } else {
      app.hasZoomedRunner := true;
      app.zoomedRunner := app.activeRunner;
    }
  }

  /** `d`: show or hide the debug pane. */
  method PressDebug(app: App)
    requires app.Valid() && |app.runners| > 0
    modifies app`showDebug
    ensures KeyHandled(app, Char('d'))
  {
    app.showDebug := !app.showDebug;
  }

  /** `?`: show the help popup. */
  method PressHelp(app: App)
    requires app.Valid() && |app.runners| > 0
    modifies app`showHelp
    ensures KeyHandled(app, Char('?'))
  {
    app.showHelp := true;
  }

  /** Esc: hide the help popup. */
  method PressEsc(app: App)
    requires app.Valid() && |app.runners| > 0
    modifies app`showHelp
    ensures KeyHandled(app, Esc)
  {
    app.showHelp := false;
  }

  /** Every other key: nothing happens. */
  method IgnoreKey(app: App, key: Key)
    requires app.Valid() && |app.runners| > 0 && !IsBound(key)
    ensures KeyHandled(app, key)
  {
    UnboundKeyKeepsPanes(key);
  }

  /** `j`/Down on one runner: one line further while below the extent. */
  method ScrollRunnerDown(runner: Runner)
    requires runner.Valid()
    modifies runner`verticalScrollPosition
    ensures runner.Valid()
    ensures runner.ScrollState() == ScrollDown(old(runner.ScrollState()))
  {
    runner.verticalScrollPosition :=
      if runner.verticalScrollPosition < runner.verticalScrollSize
      then SatInc(runner.verticalScrollPosition)
      else runner.verticalScrollPosition;
  }

  /** `k`/Up on one runner: one line back while above the top. */
  method ScrollRunnerUp(runner: Runner)
    requires runner.Valid()
    modifies runner`verticalScrollPosition
    ensures runner.Valid()
    ensures runner.ScrollState() == ScrollUp(old(runner.ScrollState()))
  {
    runner.verticalScrollPosition :=
      if runner.verticalScrollPosition > 0
      then SatDec(runner.verticalScrollPosition)
      else runner.verticalScrollPosition;
  }
}
