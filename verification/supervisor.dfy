/** The supervisor of one runner: the body of its event loop as a state
    machine over the events Restart, Stop, Finish and ApplicationQuit.

    `SupState` is everything one supervisor reads or writes: the runner's
    `state` and `should_restart` in the shared application state, the
    runner's event queue, the child-handle and join slots, and two traces
    kept for the proofs: how many children were launched and which handles
    were killed. `Next` is the specification of one loop iteration; the
    class `Supervisor` is the imperative loop body, proved against it. */
module Supervision {
  import opened Wrappers
  import opened Models
  import opened Worker

  /** Whether the event loop still runs; a failed launch panics the thread. */
  datatype LoopStatus = Running | Exited | Panicked(cause: SpawnError)

  /** The environment's answers during one event: whether the operating
      system accepts a spawn, whether the waiter in the join slot has
      finished, and whether joining it succeeds. */
  datatype Env = Env(spawnOk: bool, joinFinished: bool, joinClean: bool)

  datatype SupState = SupState(
    state: RunnerState,
    shouldRestart: bool,
    queue: seq<EventType>,
    handle: Option<Child>,
    join: Option<JoinHandle>,
    launches: nat,
    kills: seq<Child>,
    status: LoopStatus)

  /** The slots hold the handles of the latest launch. */
  predicate SlotsHoldLatest(s: SupState) {
    (s.handle.Some? ==> s.launches > 0 && s.handle.value == Child(s.launches - 1)) &&
    (s.join.Some? ==> s.launches > 0 && s.join.value == JoinHandle(s.launches - 1))
  }

  /** Every child launched so far has been killed, except the one held. */
  predicate OnlyHeldChildUnkilled(s: SupState) {
    forall l :: 0 <= l < s.launches ==> Child(l) in s.kills || s.handle == Some(Child(l))
  }

  /** Every child launched so far has been killed. */
  predicate AllChildrenKilled(s: SupState) {
    forall l :: 0 <= l < s.launches ==> Child(l) in s.kills
  }

  /** The supervisor invariant; a loop that has ended left no child unkilled. */
  predicate Inv(s: SupState) {
    SlotsHoldLatest(s) && OnlyHeldChildUnkilled(s) &&
    (!s.status.Running? ==> AllChildrenKilled(s))
  }

  /** The children launched and never killed. */
  function LiveChildren(s: SupState): set<Child> {
    set l | 0 <= l < s.launches && Child(l) !in s.kills :: Child(l)
  }

  /** At most one child process is ever alive, and it is the one held. */
  lemma AtMostOneLiveChild(s: SupState)
    requires Inv(s)
    ensures LiveChildren(s) <= (if s.handle.Some? then {s.handle.value} else {})
    ensures |LiveChildren(s)| <= 1
  {
    var held: set<Child> := if s.handle.Some? then {s.handle.value} else {};
    forall c | c in LiveChildren(s) ensures c in held {
      var l :| 0 <= l < s.launches && Child(l) !in s.kills && c == Child(l);
    }
    assert |held| <= 1;
    SubsetCard(LiveChildren(s), held);
  }

  lemma SubsetCard<T>(a: set<T>, b: set<T>)
    requires a <= b
    ensures |a| <= |b|
  {
    if a != {} {
      var x :| x in a;
      SubsetCard(a - {x}, b - {x});
    }
  }

  /** A supervisor whose loop has ended leaves no live child. */
  lemma EndedLoopLeavesNoLiveChild(s: SupState)
    requires Inv(s) && !s.status.Running?
    ensures LiveChildren(s) == {}
  {
  }

  /** `kill()` on the held child, if any. */
  function Kill(s: SupState): (r: SupState)
    ensures r.kills == s.kills + (if s.handle.Some? then [s.handle.value] else [])
    ensures OnlyHeldChildUnkilled(s) ==> AllChildrenKilled(r)
    ensures r.(kills := s.kills) == s
  {
    if s.handle.Some? then s.(kills := s.kills + [s.handle.value]) else s
  }

  /** `spawn_child` with the new handles stored in the slots; a failed
      launch ends the loop. */
  function Launch(s: SupState, cfg: RunnerCfg, spawnOk: bool): (r: SupState)
    ensures r.queue == s.queue && r.kills == s.kills
    ensures s.status.Running? && SlotsHoldLatest(s) && AllChildrenKilled(s) ==> Inv(r)
    ensures r.status.Running? <==> LaunchFailure(cfg, spawnOk).None? && s.status.Running?
    ensures LaunchFailure(cfg, spawnOk).None? ==>
      r.state == Active && !r.shouldRestart && r.launches == s.launches + 1 &&
      r.handle == Some(Child(s.launches)) && r.join == Some(JoinHandle(s.launches))
    ensures LaunchFailure(cfg, spawnOk).Some? ==>
      r == s.(status := Panicked(LaunchFailure(cfg, spawnOk).value))
  {
    match LaunchFailure(cfg, spawnOk)
    case Some(e) => s.(status := Panicked(e))
    case None =>
      s.(state := Active, shouldRestart := false,
         handle := Some(Child(s.launches)), join := Some(JoinHandle(s.launches)),
         launches := s.launches + 1)
  }

  /** A supervisor just started: nothing launched yet. */
  function Initial(state: RunnerState, shouldRestart: bool, queue: seq<EventType>): (s: SupState)
    ensures Inv(s) && LiveChildren(s) == {}
  {
    SupState(state, shouldRestart, queue, None, None, 0, [], Running)
  }

  /** Startup: launch at once when `auto_start` is set. */
  function AfterStart(s: SupState, cfg: RunnerCfg, spawnOk: bool): (r: SupState)
    requires Inv(s) && s.launches == 0 && s.status.Running?
    ensures Inv(r)
    ensures !cfg.autoStart ==> r == s
    ensures cfg.autoStart ==> r == Launch(s, cfg, spawnOk)
  {
    if cfg.autoStart then Launch(s, cfg, spawnOk) else s
  }

  /** The reaction to one event taken off the queue. */
  function Handle(s: SupState, cfg: RunnerCfg, e: EventType, env: Env): (r: SupState)
    requires s.status.Running?
    ensures Inv(s) ==> Inv(r)
  {
    match e
    case Stop => Kill(s)
    case Restart => Launch(Kill(s), cfg, env.spawnOk)
    case Finish =>
      var t := if s.join.Some? && env.joinFinished
        then s.(state := if env.joinClean then RunnerState.Finish else Error, join := None)
        else s;
      if cfg.restartOnFinish then t.(queue := t.queue + [Restart]) else t
    case ApplicationQuit => Kill(s).(status := Exited)
  }

  /** One iteration of the event loop; nothing happens once the loop has
      ended or while the queue is empty (the receive blocks). */
  function Next(s: SupState, cfg: RunnerCfg, env: Env): (r: SupState)
    ensures Inv(s) ==> Inv(r)
    ensures !s.status.Running? || s.queue == [] ==> r == s
  {
    if !s.status.Running? || s.queue == [] then s
    else Handle(s.(queue := s.queue[1..]), cfg, s.queue[0], env)
  }

  /** Consecutive loop iterations, one environment answer each. */
  function NextMany(s: SupState, cfg: RunnerCfg, envs: seq<Env>): SupState
    decreases |envs|
  {
    if envs == [] then s else NextMany(Next(s, cfg, envs[0]), cfg, envs[1..])
  }

  /** With `auto_start`, a supervisor launches its first child at once:
      the runner becomes Active holding child 0, or the loop ends when the
      launch fails. */
  lemma AutoStartLaunches(state: RunnerState, shouldRestart: bool, queue: seq<EventType>,
                          cfg: RunnerCfg, spawnOk: bool)
    requires cfg.autoStart
    ensures var r := AfterStart(Initial(state, shouldRestart, queue), cfg, spawnOk);
      r.queue == queue && r.kills == [] &&
      (cfg.args != [] && spawnOk ==>
         r.state == Active && !r.shouldRestart && r.status == Running && r.launches == 1 &&
         r.handle == Some(Child(0)) && r.join == Some(JoinHandle(0))) &&
      (!(cfg.args != [] && spawnOk) ==>
         r.status == Panicked(LaunchFailure(cfg, spawnOk).value) && r.state == state &&
         LiveChildren(r) == {})
  {
  }

  /** However the events and the environment's answers go, at most one
      child is alive after any number of loop iterations. */
  lemma {:induction false} StepsKeepOneLiveChild(s: SupState, cfg: RunnerCfg, envs: seq<Env>)
    requires Inv(s)
    ensures Inv(NextMany(s, cfg, envs))
    ensures |LiveChildren(NextMany(s, cfg, envs))| <= 1
    decreases |envs|
  {
    if envs == [] {
      AtMostOneLiveChild(s);
    } else {
      StepsKeepOneLiveChild(Next(s, cfg, envs[0]), cfg, envs[1..]);
    }
  }

  /** Stop kills the held child, if any, and changes nothing else: not the
      runner's state, which only a later Finish updates. */
  lemma StopOnlyKills(s: SupState, cfg: RunnerCfg, env: Env)
    requires s.status.Running?
    ensures var r := Handle(s, cfg, Stop, env);
      r.state == s.state && r.queue == s.queue && r.handle == s.handle && r.join == s.join &&
      r.kills == s.kills + (if s.handle.Some? then [s.handle.value] else [])
  {
  }

  /** Restart kills the held child before storing the new launch's handles,
      and marks the runner `Active` with no restart pending. */
  lemma RestartReplacesChild(s: SupState, cfg: RunnerCfg, env: Env)
    requires s.status.Running? && cfg.args != [] && env.spawnOk
    ensures var r := Handle(s, cfg, Restart, env);
      r.kills == s.kills + (if s.handle.Some? then [s.handle.value] else []) &&
      r.handle == Some(Child(s.launches)) && r.join == Some(JoinHandle(s.launches)) &&
      r.state == Active && !r.shouldRestart && r.status == Running
  {
  }

  /** A Restart whose launch fails ends the loop, with the old child killed. */
  lemma FailedRestartEndsLoop(s: SupState, cfg: RunnerCfg, env: Env)
    requires Inv(s) && s.status.Running? && (cfg.args == [] || !env.spawnOk)
    ensures var r := Handle(s, cfg, Restart, env);
      r.status == Panicked(LaunchFailure(cfg, env.spawnOk).value) && LiveChildren(r) == {}
  {
    EndedLoopLeavesNoLiveChild(Handle(s, cfg, Restart, env));
  }

  /** Finish records the outcome of a finished waiter (`Finish` when the
      join succeeds, `Error` when it fails) and empties the join slot;
      otherwise the state is kept. A Restart is queued iff
      `restart_on_finish`. */
  lemma FinishOutcome(s: SupState, cfg: RunnerCfg, env: Env)
    requires s.status.Running?
    ensures var r := Handle(s, cfg, EventType.Finish, env);
      (s.join.Some? && env.joinFinished ==>
         r.state == (if env.joinClean then RunnerState.Finish else Error) && r.join == None) &&
      (!(s.join.Some? && env.joinFinished) ==> r.state == s.state && r.join == s.join) &&
      r.queue == s.queue + (if cfg.restartOnFinish then [Restart] else []) &&
      r.handle == s.handle && r.kills == s.kills && r.status == Running
  {
  }

  /** ApplicationQuit kills the held child and ends the loop, leaving no
      live child. */
  lemma QuitKillsAndExits(s: SupState, cfg: RunnerCfg, env: Env)
    requires Inv(s) && s.status.Running?
    ensures var r := Handle(s, cfg, ApplicationQuit, env);
      r.status == Exited && r.state == s.state && LiveChildren(r) == {}
  {
    EndedLoopLeavesNoLiveChild(Handle(s, cfg, ApplicationQuit, env));
  }

  /** With `restart_on_finish`, a command that exits at once cycles
      Active, Finish, Active: its Finish records the clean exit and queues a
      Restart, which launches the next child. */
  lemma RestartOnFinishCycles(s: SupState, cfg: RunnerCfg, env: Env)
    requires Inv(s) && s.status.Running? && s.state == Active && s.join.Some?
    requires s.queue == [EventType.Finish] && cfg.restartOnFinish && cfg.args != []
    requires env == Env(true, true, true)
    ensures Next(s, cfg, env).state == RunnerState.Finish
    ensures Next(s, cfg, env).queue == [Restart]
    ensures var r := NextMany(s, cfg, [env, env]);
      r.state == Active && r.queue == [] && r.launches == s.launches + 1 && r.status == Running
  {
    var t := Next(s, cfg, env);
    assert NextMany(s, cfg, [env, env]) == NextMany(t, cfg, [env]);
    assert NextMany(t, cfg, [env]) == Next(t, cfg, env);
  }

  /** With `restart_on_finish`, a manual Restart does not settle: the
      killed child's Finish arrives while the join slot holds the new,
      still running launch, so the state is kept but another Restart is
      queued, which kills the new child in turn. */
  lemma ManualRestartRequeuesRestart(s: SupState, cfg: RunnerCfg, env: Env)
    requires Inv(s) && s.status.Running? && s.handle.Some?
    requires s.queue == [Restart, EventType.Finish] && cfg.restartOnFinish && cfg.args != []
    requires env == Env(true, false, false)
    ensures var r := NextMany(s, cfg, [env, env]);
      r.queue == [Restart] && r.launches == s.launches + 1 && r.state == Active &&
      r.kills == s.kills + [s.handle.value] && r.handle == Some(Child(s.launches)) &&
      r.status == Running
  {
    var t := Next(s, cfg, env);
    assert t.queue == [EventType.Finish];
    assert NextMany(s, cfg, [env, env]) == NextMany(t, cfg, [env]);
    assert NextMany(t, cfg, [env]) == Next(t, cfg, env);
  }

  /** The loop of `start_process` for runner `index`: the channel ends
      taken from the runner at startup, the child-handle and join slots,
      and the two proof traces `launches` and `kills`. */
  class Supervisor {
    const app: App
    const index: nat
    const config: RunnerCfg
    const channel: Channel
    var handle: Option<Child>
    var join: Option<JoinHandle>
    var launches: nat
    var kills: seq<Child>
    var status: LoopStatus

    ghost function Snapshot(): SupState
      reads this, app, app.runners, channel
      requires index < |app.runners|
    {
      var r := app.runners[index];
      SupState(r.state, r.shouldRestart, channel.queue, handle, join, launches, kills, status)
    }

    ghost predicate Valid()
      reads this, app, app.runners, channel
    {
      index < |app.runners| && channel == app.runners[index].channel && Inv(Snapshot())
    }

    /** The runner's lines and scroll fields, which no supervisor touches. */
    ghost function Log(): (seq<StdLine>, Scrolling.Scroll)
      reads app, app.runners
      requires index < |app.runners|
    {
      (app.runners[index].lines, app.runners[index].ScrollState())
    }

    /** Taking the runner's channel ends, with both slots empty. */
    constructor (app: App, index: nat, config: RunnerCfg)
      requires index < |app.runners|
      ensures Valid()
      ensures this.app == app && this.index == index && this.config == config
      ensures Snapshot() == Initial(app.runners[index].state, app.runners[index].shouldRestart,
                                    app.runners[index].channel.queue)
    {
      this.app := app;
      this.index := index;
      this.config := config;
      this.channel := app.runners[index].channel;
      handle := None;
      join := None;
      launches := 0;
      kills := [];
      status := Running;
    }

    /** Launch at startup when `auto_start` is set. */
    method Start(spawnOk: bool)
      requires Valid() && app.Valid() && launches == 0 && status == Running
      modifies this, app.runners[index]
      ensures Valid() && app.Valid()
      ensures Snapshot() == AfterStart(old(Snapshot()), config, spawnOk)
      ensures Log() == old(Log())
    {
      if config.autoStart {
        LaunchChild(spawnOk);
      }
    }

    /** One iteration of `'process_loop`: receive the oldest event and
      handle it. Returns the event handled, or `None` when the loop has
      ended or the receive would block. */
    method Step(env: Env) returns (event: Option<EventType>)
      requires Valid() && app.Valid()
      modifies this, channel, app.runners[index]
      ensures Valid() && app.Valid()
      ensures Snapshot() == Next(old(Snapshot()), config, env)
      ensures event == if old(status).Running? && old(channel.queue) != []
                       then Some(old(channel.queue)[0]) else None
      ensures Log() == old(Log())
    {
      if !status.Running? || channel.queue == [] {
        return None;
      }
      event := channel.Recv();
      match event.value
      case Stop => OnStop(env);
      case Restart => OnRestart(env);
      case Finish => OnFinish(env);
      case ApplicationQuit => OnQuit(env);
    }

    method OnStop(env: Env)
      requires Valid() && status.Running?
      modifies this
      ensures Valid()
      ensures Snapshot() == Handle(old(Snapshot()), config, Stop, env)
    {
      KillChild();
    }

    method OnRestart(env: Env)
      requires Valid() && app.Valid() && status.Running?
      modifies this, app.runners[index]
      ensures Valid() && app.Valid()
      ensures Snapshot() == Handle(old(Snapshot()), config, Restart, env)
      ensures Log() == old(Log())
    {
      KillChild();
      LaunchChild(env.spawnOk);
    }

    method OnFinish(env: Env)
      requires Valid() && app.Valid() && status.Running?
      modifies this, channel, app.runners[index]
      ensures Valid() && app.Valid()
      ensures Snapshot() == Handle(old(Snapshot()), config, EventType.Finish, env)
      ensures Log() == old(Log())
    {
      if join.Some? && env.joinFinished {
        join := None;
        app.runners[index].state := if env.joinClean then RunnerState.Finish else Error;
      }
      if config.restartOnFinish {
        channel.Send(Restart);
      }
    }

    method OnQuit(env: Env)
      requires Valid() && status.Running?
      modifies this
      ensures Valid()
      ensures Snapshot() == Handle(old(Snapshot()), config, ApplicationQuit, env)
    {
      KillChild();
      status := Exited;
    }

    method KillChild()
      requires index < |app.runners| && channel == app.runners[index].channel
      modifies this
      ensures Snapshot() == Kill(old(Snapshot()))
    {
      if handle.Some? {
        kills := kills + [handle.value];
      }
    }

    method LaunchChild(spawnOk: bool)
      requires index < |app.runners| && channel == app.runners[index].channel && app.Valid()
      modifies this, app.runners[index]
      ensures app.Valid()
      ensures Snapshot() == Launch(old(Snapshot()), config, spawnOk)
      ensures Log() == old(Log())
    {
      var r := SpawnChild(app, config, index, launches, spawnOk);
      match r
      case Err(e) =>
        status := Panicked(e);
      case Ok(handles) =>
        handle := Some(handles.0);
        join := Some(handles.1);
        launches := launches + 1;
    }
  }
}
