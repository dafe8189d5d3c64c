# control-panel in Dafny

A model of the core of `control-panel`, a terminal dashboard that
supervises a configured set of child processes ("runners"), captures their
output into per-runner logs and lets the user switch, scroll, zoom, restart
and stop them from the keyboard. All shared state lives in one `App`
guarded by one lock; every critical section of the program is modelled as
one atomic method call.

Files and modules:

- `wrappers.dfy` (`Wrappers`): `Option` and `Result`.
- `scroll.dfy` (`Scrolling`): Rust `usize` (`USIZE_MAX` = 2^64 - 1) with
  saturating increment and decrement. Also the scroll state of a pane: the
  auto-follow rule applied per captured line, and the bounded `j`/`k`
  moves.
- `models.dfy` (`Models`): the contents of `src/models.rs`.
  - `RunnerState` and `EventType`.
  - `StdLine` and its two renderings.
  - The configuration records, with serde defaults applied by `WithDefaults`.
  - The classes `Channel` (one unbounded channel as a FIFO `queue`),
    `Runner` and `App` (the lock-guarded application state).
- `worker.dfy` (`Worker`): launching a runner's process.
  - `spawn_child` builds the command and does the state bookkeeping.
  - The capture loops append output lines with auto-follow.
  - The completion waiter sends `Finish` once both streams have ended.
- `supervisor.dfy` (`Supervision`): the event loop of `start_process`.
  - The pure specification `SupState` / `Handle` / `Next`, with the
    invariant that every launched child except the held one has been killed.
  - The class `Supervisor`, whose methods are proved to follow `Next`.
- `ui.dfy` (`Ui`): the key dispatch of `run_app`. `ViewAfterKey`,
  `PaneAfterKey` and `Sent` specify what a key does. `HandleKey` and one
  method per match arm are proved against them through the two-state
  predicate `KeyHandled`.
- `startup.dfy` (`Startup`): `main`.
  - The configuration path.
  - Flattening the groups into one runner list, with each group keeping
    the indices of its runners.
  - The index each supervisor is started with.

Operating-system effects are inputs:
- a child process is an opaque handle numbered by its launch;
- whether a spawn succeeds, whether the waiter in the join slot has
  finished, and whether joining it succeeds, are the fields of `Env`;
- the lines of an output stream are a sequence of `ReadItem`s;
- the capture timestamps are a sequence of opaque strings.

Where the source panics (`args[0]` on an empty list, `spawn().expect`), the
model returns an error (`SpawnError`). A supervisor that hits it ends its
loop with status `Panicked`.

Two behaviours of the code worth noting:
- Finish sets the state only when the waiter in the join slot has already
  finished (`is_finished`, src/worker.rs:67-68). Otherwise the state is
  kept.
- With `restart_on_finish`, a manual Restart does not settle. The Finish
  arm sends a Restart on every Finish (src/worker.rs:80-84), whichever
  launch that Finish came from. So the Finish of the child killed by the
  manual Restart queues another Restart, which kills the new launch in
  turn. `ManualRestartRequeuesRestart` states this.

## Model

| member | source | states |
|---|---|---|
| Scrolling.SatInc | src/worker.rs:138 | `saturating_add(1)`: grows by one, except at `USIZE_MAX`, where it stays |
| Scrolling.SatDec | src/ui.rs:115 | `saturating_sub(1)`: shrinks by one, except at 0 |
| Scrolling.SatLen | src/worker.rs:140 | a count kept with saturating increments is the true count capped at `USIZE_MAX` |
| Scrolling.AfterAppend | src/worker.rs:136-140 | one captured line: the extent grows by one (saturating). A view at the bottom stays at the bottom, any other view keeps its position, and position <= extent is preserved |
| Scrolling.AfterAppends | src/worker.rs:130-141 | the scroll state after n captured lines |
| Scrolling.AppendsStep | src/worker.rs:130-141 | n + 1 captured lines are n lines followed by one more |
| Scrolling.AppendsCompose | src/worker.rs:130-158 | m lines followed by n lines are m + n lines |
| Scrolling.AppendsKeepInView | src/worker.rs:130-141 | position <= extent survives any number of captured lines |
| Scrolling.AppendsExtent | src/worker.rs:140 | after n lines the extent is the old extent plus n, capped at `USIZE_MAX` |
| Scrolling.AppendsAtBottomFollow | src/worker.rs:136-139 | a view at the bottom follows n lines: its position advances by n along with the extent |
| Scrolling.AppendsScrolledUpStay | src/worker.rs:136-140 | a view scrolled up keeps its position across n lines while the extent grows by n |
| Scrolling.ScrollDown | src/ui.rs:98-109 | `j`/Down moves one line only while below the extent, keeping position <= extent |
| Scrolling.ScrollUp | src/ui.rs:110-119 | `k`/Up moves one line back only while above 0 |
| Scrolling.UpUndoesDown | src/ui.rs:98-119 | Up undoes a Down that moved |
| Scrolling.DownUndoesUp | src/ui.rs:98-119 | Down undoes an Up that moved |
| Models.StdLine.ToString | src/models.rs:21-26 | without timestamps the line is its content; with them it is `[` timestamp `] ` content; either way it ends with the content |
| Models.StdLine.ToRatatuiLine | src/models.rs:29-31 | the renderer's line carries exactly the text of `ToString` |
| Models.ParseStampedInvertsToString | src/models.rs:21-23 | timestamp and content can be read back from the timestamped rendering, since the timestamp holds no `]` |
| Models.DefaultAutoStart | src/models.rs:55-57 | the serde default of `auto_start`: true |
| Models.DefaultRestartOnFinish | src/models.rs:59-61 | the serde default of `restart_on_finish`: false |
| Models.WithDefaults | src/models.rs:44-61 | a missing `auto_start` is true, a missing `restart_on_finish` is false, and every other field is copied |
| Models.Channel.constructor | src/main.rs:49 | a new channel is empty |
| Models.Channel.Send | src/worker.rs:81-83 | `send` appends the event at the end of the queue |
| Models.Channel.Recv | src/worker.rs:43 | `recv` takes the oldest event; an empty queue yields nothing (the real call blocks) |
| Models.Runner.constructor | src/main.rs:51-63 | a new runner has the configured name and args, no lines, scroll 0/0, state `Ready`, no restart pending, and its own fresh, empty channel |
| Models.App.constructor | src/models.rs:101-113 | `App::default()`: no runners or groups, both pane indices 0, and every flag false |
| Worker.CommandFor | src/worker.rs:103-112 | the command is an error exactly when `args` is empty. Otherwise the executable followed by its arguments is `args`, in order, and a directory is set exactly when `dir` is not empty |
| Worker.BuildCommand | src/worker.rs:103-112 | the argument-adding loop builds exactly `CommandFor` |
| Worker.LaunchFailure | src/worker.rs:103-117 | a launch fails exactly when `args` is empty or the spawn is refused; an empty `args` fails first |
| Worker.SpawnChild | src/worker.rs:97-176 | a successful launch returns the handles of this launch and sets the runner `Active` with no restart pending. A failed one reports `LaunchFailure` and changes nothing. Either way the runner's log and scroll state are kept, and no other runner changes |
| Worker.Captured | src/worker.rs:130-141 | a capture task appends at most one line per stream item and stops at the first undecodable item |
| Worker.CapturedInOrder | src/worker.rs:130-135 | captured line k is stream item k with clock reading k: nothing is dropped, reordered or altered |
| Worker.CapturedUnfolds | src/worker.rs:130-135 | a decodable item is captured ahead of everything that follows it |
| Worker.CapturedStep | src/worker.rs:130-141 | the lines captured so far, plus the next decodable item, are still a prefix of the whole capture |
| Worker.AppendCaptured | src/worker.rs:131-140 | one append pushes the line at the end of the log and applies `AfterAppend` to the scroll state; state and restart flag are kept |
| Worker.CaptureStream | src/worker.rs:130-141 | draining a stream appends exactly `Captured` in order, applies `AfterAppends` for that many lines, and reports whether the stream ended without an undecodable line |
| Worker.CaptureThenFinish | src/worker.rs:126-166 | the waiter sends exactly one `Finish` after the stdout and the stderr lines have been appended, with the scroll state advanced for all of them |
| Supervision.AtMostOneLiveChild | src/worker.rs:50-64 | under the supervisor invariant, the only child not killed is the held one, so at most one child is alive |
| Supervision.EndedLoopLeavesNoLiveChild | src/worker.rs:86-91 | a loop that has ended leaves no child alive |
| Supervision.Kill | src/worker.rs:46-48 | the held child, if any, is added to the kills and nothing else changes; when it was the only child not yet killed, every launched child has now been killed |
| Supervision.Launch | src/worker.rs:55-63 | a successful launch makes the runner Active with no restart pending and holds the new child and waiter; a failed one changes only the status, to Panicked with its cause. The queue and kills are kept, and a launch after every earlier child was killed restores the invariant |
| Supervision.Initial | src/worker.rs:15-27 | a supervisor with empty slots satisfies the invariant and has no live child |
| Supervision.AfterStart | src/worker.rs:28-39 | startup keeps the invariant, launches exactly when `auto_start` is set, and otherwise changes nothing |
| Supervision.AutoStartLaunches | src/worker.rs:28-39 | with `auto_start`, a fresh supervisor holds child 0 and the runner is Active, or the failed launch ends the loop with no live child |
| Supervision.Handle | src/worker.rs:44-92 | handling any event keeps the invariant |
| Supervision.Next | src/worker.rs:41-94 | one loop iteration keeps the invariant, and does nothing once the loop has ended or while the queue is empty |
| Supervision.NextMany | src/worker.rs:41-94 | consecutive loop iterations, one environment answer each |
| Supervision.StepsKeepOneLiveChild | src/worker.rs:41-94 | after any number of iterations, whatever the events and the environment's answers, at most one child is alive |
| Supervision.StopOnlyKills | src/worker.rs:45-49 | Stop kills the held child if there is one, and changes neither the state, the queue nor the slots |
| Supervision.RestartReplacesChild | src/worker.rs:50-64 | Restart kills the held child before storing the new launch's handles, and sets `Active` with no restart pending |
| Supervision.FailedRestartEndsLoop | src/worker.rs:55-60 | a Restart whose launch fails ends the loop with that error and no live child |
| Supervision.FinishOutcome | src/worker.rs:65-85 | Finish with a finished waiter records `Finish` on a clean join and `Error` on a failed one, and empties the slot. Otherwise the state is kept. A Restart is queued exactly when `restart_on_finish` |
| Supervision.QuitKillsAndExits | src/worker.rs:86-91 | ApplicationQuit kills the held child, ends the loop, keeps the state and leaves no live child |
| Supervision.RestartOnFinishCycles | src/worker.rs:65-85 | with `restart_on_finish`, a command that exits at once goes Active, then Finish, then Active with a new launch |
| Supervision.ManualRestartRequeuesRestart | src/worker.rs:50-85 | with `restart_on_finish`, the killed child's Finish after a manual Restart queues yet another Restart |
| Supervision.Supervisor.constructor | src/worker.rs:15-27 | the supervisor takes runner `index`'s channel and starts with empty slots (`Initial`) |
| Supervision.Supervisor.Start | src/worker.rs:28-39 | startup follows `AfterStart` and leaves the runner's log alone |
| Supervision.Supervisor.Step | src/worker.rs:41-94 | one iteration receives the oldest event and follows `Next` |
| Supervision.Supervisor.OnStop | src/worker.rs:45-49 | the Stop arm follows `Handle` |
| Supervision.Supervisor.OnRestart | src/worker.rs:50-64 | the Restart arm follows `Handle` |
| Supervision.Supervisor.OnFinish | src/worker.rs:65-85 | the Finish arm follows `Handle` |
| Supervision.Supervisor.OnQuit | src/worker.rs:86-91 | the ApplicationQuit arm follows `Handle` |
| Supervision.Supervisor.KillChild | src/worker.rs:46-48 | killing follows `Kill` |
| Supervision.Supervisor.LaunchChild | src/worker.rs:55-63 | launching through `SpawnChild` follows `Launch` |
| Ui.NextPane | src/ui.rs:64-70 | `n` stays below the pane count and moves one on, wrapping from the last pane to the first |
| Ui.PrevPane | src/ui.rs:71-77 | `p` stays below the pane count and moves one back, wrapping from the first pane to the last |
| Ui.PaneCyclingIsModular | src/ui.rs:64-77 | `n` is +1 and `p` is -1 modulo the pane count |
| Ui.PrevUndoesNext | src/ui.rs:64-77 | `p` undoes `n` |
| Ui.NextUndoesPrev | src/ui.rs:64-77 | `n` undoes `p` |
| Ui.NextPaneTimes | src/ui.rs:64-70 | the active pane after k presses of `n`, always below the pane count |
| Ui.NextPaneTimesSplit | src/ui.rs:64-70 | j + k presses of `n` are j presses followed by k presses |
| Ui.NextPaneTimesClimbs | src/ui.rs:64-70 | `n` climbs one pane per press and reaches pane 0 exactly when it passes the last |
| Ui.NextPaneFullCycle | src/ui.rs:64-70 | `count` presses of `n` come back to the start, and no fewer do |
| Ui.ViewAfterKey | src/ui.rs:36-121 | the active pane stays below the pane count, and the zoomed pane is the old zoomed or the old active one |
| Ui.PaneAfterKey | src/ui.rs:46-119 | keys never change the extent and keep position <= extent |
| Ui.Sent | src/ui.rs:37-63 | at most one event reaches each runner, and only `q` reaches runners other than the active one |
| Ui.ToggleTwiceIsIdentity | src/ui.rs:78-91 | `t` and `d` negate their flag, so pressing either twice changes nothing |
| Ui.HelpKeysIdempotent | src/ui.rs:92-97 | `?` shows and Esc hides the help, and pressing either again changes nothing |
| Ui.ZoomToggles | src/ui.rs:81-88 | `z` flips the zoom. Zooming in targets the active pane; zooming out leaves the zoomed index as it was |
| Ui.ScrollKeysBounded | src/ui.rs:98-119 | `j` equals Down and `k` equals Up; Down never passes the extent; each undoes the other when it moved |
| Ui.RestartAndStopTargetActive | src/ui.rs:46-63 | `r` and `s` flag the active runner only, and send it exactly one Restart or Stop |
| Ui.QuitBroadcasts | src/ui.rs:37-45 | `q` sends exactly one ApplicationQuit to every runner |
| Ui.UnboundKeyIsNoOp | src/ui.rs:120 | a key the handler does not name changes no field and sends nothing |
| Ui.UnboundKeyKeepsPanes | src/ui.rs:120 | a key the handler does not name leaves every runner pane as it is |
| Ui.Broadcast | src/ui.rs:37-44 | the exit flag is set and every runner's channel gets exactly one ApplicationQuit appended |
| Ui.HandleKey | src/ui.rs:36-121 | one key press is `KeyHandled`: dashboard fields follow `ViewAfterKey`, the active runner follows `PaneAfterKey` and the others are kept, logs and states are kept, and each channel receives `Sent`; the loop ends exactly on `q` |
| Ui.PressQuit | src/ui.rs:37-45 | the `q` arm is `KeyHandled` |
| Ui.PressRestartOrStop | src/ui.rs:46-63 | the `r` and `s` arms are `KeyHandled` |
| Ui.PressNext | src/ui.rs:64-70 | the `n` arm is `KeyHandled` |
| Ui.PressPrev | src/ui.rs:71-77 | the `p` arm is `KeyHandled` |
| Ui.PressTimestamps | src/ui.rs:78-80 | the `t` arm is `KeyHandled` |
| Ui.PressZoom | src/ui.rs:81-88 | the `z` arm is `KeyHandled` |
| Ui.PressDebug | src/ui.rs:89-91 | the `d` arm is `KeyHandled` |
| Ui.PressHelp | src/ui.rs:92-94 | the `?` arm is `KeyHandled` |
| Ui.PressEsc | src/ui.rs:95-97 | the Esc arm is `KeyHandled` |
| Ui.PressDown | src/ui.rs:98-109 | the `j`/Down arm is `KeyHandled` |
| Ui.PressUp | src/ui.rs:110-119 | the `k`/Up arm is `KeyHandled` |
| Ui.IgnoreKey | src/ui.rs:120 | the catch-all arm is `KeyHandled` |
| Ui.FlagAndSend | src/ui.rs:46-63 | the runner is flagged for restart and the event is appended to its channel |
| Ui.ScrollRunnerDown | src/ui.rs:98-109 | the runner's scroll follows `ScrollDown` and keeps the runner invariant |
| Ui.ScrollRunnerUp | src/ui.rs:110-119 | the runner's scroll follows `ScrollUp` and keeps the runner invariant |
| Startup.ConfigPath | src/main.rs:34-38 | the path is the first argument after the program name when there is one, and `./config.yml` otherwise |
| Startup.Flat | src/main.rs:46-66 | the runner configurations of every group, in configuration order |
| Startup.TotalRunners | src/main.rs:46-66 | the sum of the group sizes |
| Startup.GroupIndices | src/main.rs:47-65 | the groups `main` records: group g lists the consecutive indices its runners take |
| Startup.Range | src/main.rs:47-50 | the consecutive indices lo, ..., lo + n - 1 |
| Startup.RangeSnoc | src/main.rs:50 | recording one more index extends the range by its next value |
| Startup.FlatLength | src/main.rs:46-66 | the flattened runner list is as long as the sum of the group sizes |
| Startup.GroupCount | src/main.rs:46-65 | one group is recorded per configured group |
| Startup.FlatPrefix | src/main.rs:46-66 | the runners of group g follow those of the groups before it, and group g's indices start where they end |
| Startup.FlatGrows | src/main.rs:46-66 | flattening more groups only extends the list |
| Startup.GroupLookup | src/main.rs:47-65 | entry k of recorded group g points at runner k of configuration group g |
| Startup.GroupsPartitionRunners | src/main.rs:46-66 | read one after the other, the groups list 0, 1, ..., n - 1: each runner is in exactly one group |
| Startup.GroupIndicesExample | src/main.rs:46-66 | groups of sizes 2 and 1 give `[[0, 1], [2]]` and three runners in order |
| Startup.BuildApp | src/main.rs:40-66 | the filled `App` is valid; runner i is the fresh initial runner of flattened configuration i; the groups are `GroupIndices`; and the dashboard fields are the defaults |
| Startup.PushGroups | src/main.rs:46-66 | the outer loop pushes the flattened runners and the groups of their indices |
| Startup.PushGroup | src/main.rs:47-65 | one outer iteration appends group g's fresh initial runners after the earlier ones and records the group of their indices |
| Startup.InitialRunnersExtend | src/main.rs:46-66 | runners matching the earlier groups' configurations, followed by runners matching group g's, match the flattened list of both |
| Startup.PushRunners | src/main.rs:48-64 | the inner loop appends one fresh initial runner per configuration and records the indices they take |
| Startup.WorkerAssignments | src/main.rs:96-107 | the i-th spawned worker gets index i and the i-th flattened configuration |
| Startup.StartSupervisors | src/main.rs:97-105 | each worker's supervisor takes the channel of the runner whose index it was given |
| Startup.Boot | src/main.rs:40-107 | supervisor i runs the configuration of runner i (same name and args) and listens on runner i's channel |

## Left out

- Threads, `Arc<Mutex<…>>`, thread joins and the interleaving of critical sections: each lock-guarded block is one atomic method.
- The two capture tasks of a launch run concurrently in the source. `CaptureThenFinish` runs stdout first, then stderr. So the model fixes one of the possible interleavings, while the order within each stream is kept.
- Spawning, killing and the pipes themselves are operating-system calls. Spawn success and the join outcome are inputs (`Env`), and a kill is recorded in the `kills` trace rather than performed.
- The `is_finished` poll and `join` of the waiter are inputs, because their answers depend on thread timing. `Env.joinFinished` and `Env.joinClean` stand for them.
- Panics in `get_mut(i).unwrap()` are not modelled: `App.Valid` and the requires on the index rule out the out-of-range case.
- Ui.HandleKey (and every `Press` method): requires at least one runner, for every key. With no runners the source still handles `q`, `t`, `z`, `d`, `?`, Esc and unbound keys, but `n` and `p` underflow at `len() - 1` (src/ui.rs:65, :73) and `r`, `s`, `j`, `k` panic in `get_mut(0).unwrap()`. The model does not cover the empty dashboard.
- The derived `Default` of `RunnerState` (`Ready`, src/models.rs:92-99) and of `EventType` (`Restart`, src/models.rs:63-70) is not modelled: the core never uses it. The runner literal at src/main.rs:59 names `RunnerState::Ready` itself.
- Worker.CaptureThenFinish: an `Undecodable` item is modelled only as the end of that stream's capture. In the source, `line.expect` panics at src/worker.rs:134 (or :151) while the `App` guard taken at :131 (or :148) is held, so the panic poisons the `App` mutex. From then on every `lock().unwrap()` panics: the other capture task (:131/:148), the Finish arm (:69), `spawn_child` (:169), the key handler (src/ui.rs:35) and the renderer (src/ui.rs:132). The model does not follow that: there is no poisoned state. `CaptureThenFinish` still appends the other stream's lines and sends Finish, and a later `Supervisor.OnFinish`, `SpawnChild` or `HandleKey` proceeds as on a healthy lock. Take out = [Undecodable] and err = [Read("x")]: the model appends the stderr line, while the source's stderr task would panic at :148 and append nothing.
- `Channel.Recv` returns `None` on an empty queue, where the real `recv` blocks. `Next` treats that case as "no step".
- `send` on a disconnected channel, whose error the source ignores, is modelled as always succeeding.
- Rendering, layout and the help popup (`ui`, `render_runner_pane`, `popup_area`) are presentation only.
- Event polling, the tick rate and terminal setup are driven by the wall clock.
- Reading the configuration file and parsing YAML are left out: the parsed `Cfg` (or `RawRunnerCfg` for the serde defaults) is the input.
- `Utc::now()` and RFC 3339 formatting are left out: timestamps are opaque strings supplied by the caller.
- `debug_lines` is never written by the core; it is kept as a field and stays empty.
- Supervision.RestartOnFinishCycles: proves one Active, Finish, Active cycle for a command that exits at once. Repeating the cycle from the new state gives any number of cycles, but no lemma states that.
