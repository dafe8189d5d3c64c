/** One launch of a runner: building the command from the runner's
    configuration, the state bookkeeping done when the process has been
    spawned, and the capture of its output lines into the shared log. The
    operating system itself (spawning, pipes, killing) is outside the model:
    a child process is an opaque handle numbered by its launch, and whether
    the spawn succeeds is an input. */
module Worker {
  import opened Wrappers
  import opened Scrolling
  import opened Models

  /** Why a launch attempt fails; the original panics in both cases. */
  datatype SpawnError =
    | EmptyArgs     // `args[0]` does not exist
    | SpawnFailed   // the operating system refused to start the executable

  /** The process about to be spawned: executable, its arguments, and the
      working directory if one is set. */
  datatype Command = Command(program: string, args: seq<string>, currentDir: Option<string>)

  /** Handle of the child process of launch number `launch`. */
  datatype Child = Child(launch: nat)

  /** Handle of the completion waiter of launch number `launch`. */
  datatype JoinHandle = JoinHandle(launch: nat)

  /** The command a configuration describes: the first argument is the
      executable, the rest are its arguments in order, and the directory
      applies only when it is not empty. */
  function CommandFor(cfg: RunnerCfg): (r: Result<Command, SpawnError>)
    ensures r.Err? <==> cfg.args == []
    ensures r.Err? ==> r.error == EmptyArgs
    ensures r.Ok? ==> [r.value.program] + r.value.args == cfg.args
    ensures r.Ok? ==> (r.value.currentDir == None <==> cfg.dir == "")
    ensures r.Ok? && r.value.currentDir.Some? ==> r.value.currentDir.value == cfg.dir
  {
    if cfg.args == [] then Err(EmptyArgs)
    else Ok(Command(cfg.args[0], cfg.args[1..], if cfg.dir != "" then Some(cfg.dir) else None))
  }

  /** The first half of `spawn_child`: take the lead argument, add the
      others one by one, then set the directory. */
  method BuildCommand(cfg: RunnerCfg) returns (r: Result<Command, SpawnError>)
    ensures r == CommandFor(cfg)
  {
    if |cfg.args| == 0 {
      return Err(EmptyArgs);
    }
    var lead := cfg.args[0];
    var rest: seq<string> := [];
    var i := 1;
    while i < |cfg.args|
      invariant 1 <= i <= |cfg.args|
      invariant rest == cfg.args[1..i]
    {
      rest := rest + [cfg.args[i]];
      i := i + 1;
    }
    assert rest == cfg.args[1..];
    var dir := None;
    if cfg.dir != "" {
      dir := Some(cfg.dir);
    }
    r := Ok(Command(lead, rest, dir));
  }

  /** Why a launch of `cfg` fails, if it does, given whether the operating
      system accepts the spawn. */
  function LaunchFailure(cfg: RunnerCfg, spawnOk: bool): (e: Option<SpawnError>)
    ensures e == None <==> cfg.args != [] && spawnOk
    ensures cfg.args == [] ==> e == Some(EmptyArgs)
  {
    match CommandFor(cfg)
    case Err(err) => Some(err)
    case Ok(_) => if spawnOk then None else Some(SpawnFailed)
  }

  /** `spawn_child`: build the command, spawn it (outcome `spawnOk`), and
      under the lock mark the runner `Active` with no restart pending. Only
      runner `index` is touched, and its log is kept. */
  method SpawnChild(app: App, cfg: RunnerCfg, index: nat, launch: nat, spawnOk: bool)
    returns (r: Result<(Child, JoinHandle), SpawnError>)
    requires app.Valid() && index < |app.runners|
    modifies app.runners[index]
    ensures app.Valid()
    ensures r.Err? <==> LaunchFailure(cfg, spawnOk).Some?
    ensures r.Err? ==> r.error == LaunchFailure(cfg, spawnOk).value
    ensures r.Ok? ==> r.value == (Child(launch), JoinHandle(launch))
    ensures r.Ok? ==> app.runners[index].state == Active && !app.runners[index].shouldRestart
    ensures r.Err? ==> app.runners[index].state == old(app.runners[index].state)
    ensures r.Err? ==> app.runners[index].shouldRestart == old(app.runners[index].shouldRestart)
    ensures app.runners[index].lines == old(app.runners[index].lines)
    ensures app.runners[index].ScrollState() == old(app.runners[index].ScrollState())
  {
    var cmd := BuildCommand(cfg);
    if cmd.Err? {
      return Err(cmd.error);
    }
    if !spawnOk {
      return Err(SpawnFailed);
    }
    var runner := app.runners[index];
    runner.state := Active;
    runner.shouldRestart := false;
    r := Ok((Child(launch), JoinHandle(launch)));
  }

  /** One line delivered by `BufRead::lines`: text, or a read error. */
  datatype ReadItem = Read(content: string) | Undecodable

  /** The lines a capture task appends from `stream`, stamped with the
      clock readings `clock`: everything before the first undecodable item,
      at which the task stops. */
  function Captured(stream: seq<ReadItem>, clock: seq<string>): (lines: seq<StdLine>)
    requires |clock| == |stream|
    ensures |lines| <= |stream|
    ensures |lines| < |stream| ==> stream[|lines|] == Undecodable
  {
    if stream == [] || stream[0].Undecodable? then []
    else [StdLine(clock[0], stream[0].content)] + Captured(stream[1..], clock[1..])
  }

  /** Line `k` of the capture is item `k` of the stream, stamped with
      clock reading `k`: nothing is dropped, reordered or altered. */
  lemma {:induction false} CapturedInOrder(stream: seq<ReadItem>, clock: seq<string>)
    requires |clock| == |stream|
    ensures forall k :: 0 <= k < |Captured(stream, clock)| ==>
      stream[k] == Read(Captured(stream, clock)[k].content) && Captured(stream, clock)[k].timestamp == clock[k]
    decreases |stream|
  {
    if stream != [] && stream[0].Read? {
      CapturedInOrder(stream[1..], clock[1..]);
    }
  }

  /** A decodable item at `i` is captured, followed by what the rest of
      the stream yields. */
  lemma CapturedUnfolds(stream: seq<ReadItem>, clock: seq<string>, i: nat)
    requires |clock| == |stream| && i < |stream| && stream[i].Read?
    ensures Captured(stream[i..], clock[i..])
         == [StdLine(clock[i], stream[i].content)] + Captured(stream[i + 1..], clock[i + 1..])
  {
    assert stream[i..][1..] == stream[i + 1..] && clock[i..][1..] == clock[i + 1..];
  }

  /** The capture so far, extended by the decodable item at `i`, is still
      a prefix of the whole capture. */
  lemma CapturedStep(stream: seq<ReadItem>, clock: seq<string>, done: seq<StdLine>, i: nat)
    requires |clock| == |stream| && i < |stream| && stream[i].Read?
    requires Captured(stream, clock) == done + Captured(stream[i..], clock[i..])
    ensures Captured(stream, clock)
         == (done + [StdLine(clock[i], stream[i].content)]) + Captured(stream[i + 1..], clock[i + 1..])
  {
    CapturedUnfolds(stream, clock, i);
  }

  /** One iteration of a capture loop, under the lock: push the line at the
      end of runner `index`'s log and apply the auto-follow rule. */
  method AppendCaptured(app: App, index: nat, line: StdLine)
    requires app.Valid() && index < |app.runners|
    modifies app.runners[index]
    ensures app.Valid()
    ensures app.runners[index].lines == old(app.runners[index].lines) + [line]
    ensures app.runners[index].ScrollState() == AfterAppend(old(app.runners[index].ScrollState()))
    ensures app.runners[index].state == old(app.runners[index].state)
    ensures app.runners[index].shouldRestart == old(app.runners[index].shouldRestart)
  {
    var runner := app.runners[index];
    runner.lines := runner.lines + [line];
    if runner.verticalScrollPosition == runner.verticalScrollSize {
      runner.verticalScrollPosition := SatInc(runner.verticalScrollPosition);
    }
    runner.verticalScrollSize := SatInc(runner.verticalScrollSize);
  }

  /** A capture task draining one output stream on its own: every decodable
      line, in stream order, until the stream ends (`completed`) or an
      undecodable line stops the task. */
  method CaptureStream(app: App, index: nat, stream: seq<ReadItem>, clock: seq<string>)
    returns (completed: bool)
    requires app.Valid() && index < |app.runners| && |clock| == |stream|
    modifies app.runners[index]
    ensures app.Valid()
    ensures app.runners[index].lines == old(app.runners[index].lines) + Captured(stream, clock)
    ensures app.runners[index].ScrollState() == AfterAppends(old(app.runners[index].ScrollState()), |Captured(stream, clock)|)
    ensures app.runners[index].state == old(app.runners[index].state)
    ensures app.runners[index].shouldRestart == old(app.runners[index].shouldRestart)
    ensures completed <==> |Captured(stream, clock)| == |stream|
  {
    var runner := app.runners[index];
    ghost var done: seq<StdLine> := [];
    ghost var start := runner.ScrollState();
    var i := 0;
    while i < |stream| && stream[i].Read?
      invariant 0 <= i <= |stream|
      invariant app.Valid()
      invariant |done| == i
      invariant Captured(stream, clock) == done + Captured(stream[i..], clock[i..])
      invariant runner.lines == old(runner.lines) + done
      invariant runner.ScrollState() == AfterAppends(start, i)
      invariant runner.state == old(runner.state)
      invariant runner.shouldRestart == old(runner.shouldRestart)
    {
      var line := StdLine(clock[i], stream[i].content);
      CapturedStep(stream, clock, done, i);
      AppendCaptured(app, index, line);
      AppendsStep(start, i);
      done := done + [line];
      i := i + 1;
    }
    assert Captured(stream[i..], clock[i..]) == [];
    completed := i == |stream|;
  }

  /** The completion waiter of one launch: the stdout task, then the
      stderr task, each capture their stream into runner `index`'s log;
      once both have ended, `Finish` is sent on the runner's channel. */
  method CaptureThenFinish(app: App, index: nat, out: seq<ReadItem>, outClock: seq<string>,
                           err: seq<ReadItem>, errClock: seq<string>)
    requires app.Valid() && index < |app.runners|
    requires |outClock| == |out| && |errClock| == |err|
    modifies app.runners[index], app.runners[index].channel
    ensures app.Valid()
    ensures app.runners[index].lines
         == old(app.runners[index].lines) + Captured(out, outClock) + Captured(err, errClock)
    ensures app.runners[index].ScrollState()
         == AfterAppends(old(app.runners[index].ScrollState()), |Captured(out, outClock)| + |Captured(err, errClock)|)
    ensures app.runners[index].state == old(app.runners[index].state)
    ensures app.runners[index].shouldRestart == old(app.runners[index].shouldRestart)
    ensures app.runners[index].channel.queue == old(app.runners[index].channel.queue) + [EventType.Finish]
  {
    var runner := app.runners[index];
    var channel := runner.channel;
    ghost var start := runner.ScrollState();
    var _ := CaptureStream(app, index, out, outClock);
    var _ := CaptureStream(app, index, err, errClock);
    AppendsCompose(start, |Captured(out, outClock)|, |Captured(err, errClock)|);
    channel.Send(EventType.Finish);
  }
}
