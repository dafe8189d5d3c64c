/** The data model shared by the supervisors, the capture tasks and the
    dashboard: runner states, control events, captured lines, configuration
    records, and the lock-guarded application state (`App`) with its runners
    and their event channels. */
module Models {
  import opened Wrappers
  import opened Scrolling

  /** Lifecycle state of one runner. */
  datatype RunnerState = Ready | Active | Error | Finish

  /** The only vocabulary a supervisor understands. */
  datatype EventType = Restart | Stop | Finish | ApplicationQuit

  /** A captured output line. The timestamp is the RFC 3339 rendering of
      the capture time, kept as an opaque string. */
  datatype StdLine = StdLine(timestamp: string, content: string) {

    /** The line as shown in a pane, with or without its timestamp. */
    function ToString(showTimestamp: bool): (s: string)
      ensures !showTimestamp ==> s == content
      ensures showTimestamp ==> s == "[" + timestamp + "] " + content
      ensures |s| >= |content| && s[|s| - |content|..] == content
    {
      if showTimestamp then "[" + timestamp + "] " + content else content
    }

    /** The ratatui line handed to the renderer carries the text of `ToString`. */
    function ToRatatuiLine(showTimestamp: bool): (l: Line)
      ensures l.text == ToString(showTimestamp)
      ensures !showTimestamp ==> l.text == content
    {
      Line(ToString(showTimestamp))
    }
  }

  /** A rendered text line (the text of a ratatui `Line`). */
  datatype Line = Line(text: string)

  /** Index of the first `]` in `s` at or after `from`. */
  function FindClose(s: string, from: nat): (k: Option<nat>)
    ensures k.Some? ==> from <= k.value < |s| && s[k.value] == ']'
    ensures k.Some? ==> forall j :: from <= j < k.value ==> s[j] != ']'
    ensures k.None? ==> forall j :: from <= j < |s| ==> s[j] != ']'
    decreases |s| - from
  {
    if from >= |s| then None
    else if s[from] == ']' then Some(from)
    else FindClose(s, from + 1)
  }

  /** Reads a rendered `[timestamp] content` line back into its parts. */
  function ParseStamped(s: string): Option<StdLine> {
    if |s| == 0 || s[0] != '[' then None
    else match FindClose(s, 1)
      case None => None
      case Some(k) =>
        if k + 1 < |s| && s[k + 1] == ' ' then Some(StdLine(s[1..k], s[k + 2..])) else None
  }

  /** The timestamped rendering loses nothing: since an RFC 3339 timestamp
      holds no `]`, timestamp and content can be read back from it. */
  lemma ParseStampedInvertsToString(line: StdLine)
    requires forall i :: 0 <= i < |line.timestamp| ==> line.timestamp[i] != ']'
    ensures ParseStamped(line.ToString(true)) == Some(line)
  {
    var s := line.ToString(true);
    var t := |line.timestamp|;
    assert s[t + 1] == ']';
    forall j | 1 <= j < t + 1 ensures s[j] != ']' {
      assert s[j] == line.timestamp[j - 1];
    }
    assert FindClose(s, 1) == Some(t + 1);
    assert s[1..t + 1] == line.timestamp;
    assert s[t + 3..] == line.content;
  }

  /** One runner entry of the configuration, defaults applied. */
  datatype RunnerCfg = RunnerCfg(
    name: string,
    autoStart: bool,
    restartOnFinish: bool,
    dir: string,
    args: seq<string>)

  /** A runner entry as written in the configuration file: the two flags
      may be missing. */
  datatype RawRunnerCfg = RawRunnerCfg(
    name: string,
    autoStart: Option<bool>,
    restartOnFinish: Option<bool>,
    dir: string,
    args: seq<string>)

  function DefaultAutoStart(): bool { true }

  function DefaultRestartOnFinish(): bool { false }

  /** What deserialisation makes of an entry: a missing `auto_start` is
      true, a missing `restart_on_finish` is false. */
  function WithDefaults(raw: RawRunnerCfg): (cfg: RunnerCfg)
    ensures cfg.autoStart <==> raw.autoStart != Some(false)
    ensures cfg.restartOnFinish <==> raw.restartOnFinish == Some(true)
    ensures cfg.name == raw.name && cfg.dir == raw.dir && cfg.args == raw.args
  {
    RunnerCfg(
      raw.name,
      match raw.autoStart case Some(b) => b case None => DefaultAutoStart(),
      match raw.restartOnFinish case Some(b) => b case None => DefaultRestartOnFinish(),
      raw.dir,
      raw.args)
  }

  datatype GroupCfg = GroupCfg(runners: seq<RunnerCfg>)

  /** The parsed configuration file. */
  datatype Cfg = Cfg(groups: seq<GroupCfg>)

  /** A presentation group: the indices of its runners in `App.runners`. */
  datatype Group = Group(runners: seq<nat>)

  /** One unbounded event channel; `tx` and `rx` are both ends of it. */
  class Channel {
    var queue: seq<EventType>

    constructor ()
      ensures queue == []
    {
      queue := [];
    }

    /** `tx.send(RunnerEvent { event_type: e })`. */
    method Send(e: EventType)
      modifies this
      ensures queue == old(queue) + [e]
    {
      queue := queue + [e];
    }

    /** `rx.recv()`: the oldest event; `None` where the real call would block. */
    method Recv() returns (e: Option<EventType>)
      modifies this
      ensures old(queue) == [] ==> e == None && queue == []
      ensures old(queue) != [] ==> e == Some(old(queue)[0]) && queue == old(queue)[1..]
    {
      if queue == [] {
        e := None;
      } else {
        e := Some(queue[0]);
        queue := queue[1..];
      }
    }
  }

  /** The runtime record of one configured runner. */
  class Runner {
    const name: string
    const args: seq<string>
    var lines: seq<StdLine>
    var verticalScrollPosition: usize
    var verticalScrollSize: usize
    var state: RunnerState
    var shouldRestart: bool
    /** Created once at startup and kept across every restart. */
    const channel: Channel

    /** The position never passes the extent, and the extent counts the
        captured lines (saturating). */
    ghost predicate Valid()
      reads this
    {
      InView(ScrollState()) && verticalScrollSize == SatLen(|lines|)
    }

    /** The runner's two scroll fields as one value. */
    function ScrollState(): Scroll
      reads this
    {
      Scroll(verticalScrollPosition, verticalScrollSize)
    }

    /** A runner as it stands right after startup. */
    ghost predicate IsInitial(cfg: RunnerCfg)
      reads this, channel
    {
      name == cfg.name && args == cfg.args && lines == [] &&
      verticalScrollPosition == 0 && verticalScrollSize == 0 &&
      state == Ready && !shouldRestart && channel.queue == []
    }

    constructor (cfg: RunnerCfg)
      ensures Valid() && fresh(channel) && IsInitial(cfg)
    {
      name := cfg.name;
      args := cfg.args;
      lines := [];
      verticalScrollPosition := 0;
      verticalScrollSize := 0;
      state := Ready;
      shouldRestart := false;
      channel := new Channel();
    }
  }

  /** The shared application state guarded by one lock. */
  class App {
    var runners: seq<Runner>
    var groups: seq<Group>
    var activeRunner: nat
    var hasZoomedRunner: bool
    var zoomedRunner: nat
    var shouldExit: bool
    var showTimestamps: bool
    var showHelp: bool
    var showDebug: bool
    var debugLines: seq<StdLine>

    /** Every runner is its own object with its own channel, every runner
        keeps its scroll invariant, and the pane indices point at runners. */
    ghost predicate Valid()
      reads this, runners
    {
      RunnersValid() &&
      (activeRunner == 0 || activeRunner < |runners|) &&
      (zoomedRunner == 0 || zoomedRunner < |runners|)
    }

    /** The part of `Valid` about the runners alone. */
    ghost predicate RunnersValid()
      reads this`runners, runners
    {
      (forall i, j :: 0 <= i < j < |runners| ==> runners[i] != runners[j]) &&
      (forall i, j :: 0 <= i < j < |runners| ==> runners[i].channel != runners[j].channel) &&
      (forall i :: 0 <= i < |runners| ==> runners[i].Valid())
    }

    /** Every runner's channel. */
    ghost function Channels(): set<Channel>
      reads this
    {
      set r | r in runners :: r.channel
    }

    /** `App::default()`. */
    constructor ()
      ensures Valid()
      ensures runners == [] && groups == [] && debugLines == []
      ensures activeRunner == 0 && zoomedRunner == 0
      ensures !hasZoomedRunner && !shouldExit && !showTimestamps && !showHelp && !showDebug
    {
      runners := [];
      groups := [];
      activeRunner := 0;
      hasZoomedRunner := false;
      zoomedRunner := 0;
      shouldExit := false;
      showTimestamps := false;
      showHelp := false;
      showDebug := false;
      debugLines := [];
    }
  }
}
