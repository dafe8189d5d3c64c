/** Program startup: where the configuration file is looked for, how the
    configured groups are flattened into the one runner list of `App` (with
    each group remembering the indices of its runners), and which runner
    index each supervisor is started with. Reading the file and parsing
    YAML are outside the model: the parsed `Cfg` is the input. */
module Startup {
  import opened Models
  import opened Supervision

  /** Used when no path is given on the command line. */
  const DEFAULT_CONFIG_PATH: string := "./config.yml"

  /** The configuration file: the first command-line argument after the
      program name, if there is one. */
  function ConfigPath(args: seq<string>): (path: string)
    ensures |args| > 1 ==> path == args[1]
    ensures |args| <= 1 ==> path == DEFAULT_CONFIG_PATH
  {
    if |args| > 1 then args[1] else DEFAULT_CONFIG_PATH
  }

  /** Every runner of every group, in configuration order. */
  function Flat(groups: seq<GroupCfg>): seq<RunnerCfg>
  {
    if groups == [] then []
    else Flat(groups[..|groups| - 1]) + groups[|groups| - 1].runners
  }

  /** The sum of the group sizes. */
  function TotalRunners(groups: seq<GroupCfg>): nat
  {
    if groups == [] then 0
    else TotalRunners(groups[..|groups| - 1]) + |groups[|groups| - 1].runners|
  }

  /** `lo, lo + 1, ..., lo + n - 1`. */
  function Range(lo: nat, n: nat): (r: seq<nat>)
    ensures |r| == n && forall k :: 0 <= k < n ==> r[k] == lo + k
  {
    seq(n, k requires 0 <= k < n => lo + k)
  }

  /** One more index at the end of a range. */
  lemma RangeSnoc(lo: nat, n: nat)
    ensures Range(lo, n + 1) == Range(lo, n) + [lo + n]
  {
    assert Range(lo, n + 1)[..n] == Range(lo, n);
  }

  /** The groups recorded in `App`: group `g` lists the consecutive indices
      its runners take in the flat list. */
  function GroupIndices(groups: seq<GroupCfg>): seq<Group>
  {
    if groups == [] then []
    else
      var init := groups[..|groups| - 1];
      GroupIndices(init) + [Group(Range(TotalRunners(init), |groups[|groups| - 1].runners|))]
  }

  /** All index lists of `gs`, one after the other. */
  function Concat(gs: seq<Group>): seq<nat>
  {
    if gs == [] then [] else Concat(gs[..|gs| - 1]) + gs[|gs| - 1].runners
  }

  /** Flattening keeps every runner: the flat list is as long as the sum of
      the group sizes. */
  lemma {:induction false} FlatLength(groups: seq<GroupCfg>)
    ensures |Flat(groups)| == TotalRunners(groups)
    decreases |groups|
  {
    if groups != [] {
      FlatLength(groups[..|groups| - 1]);
    }
  }

  /** One group is recorded per configured group. */
  lemma {:induction false} GroupCount(groups: seq<GroupCfg>)
    ensures |GroupIndices(groups)| == |groups|
    decreases |groups|
  {
    if groups != [] {
      GroupCount(groups[..|groups| - 1]);
    }
  }

  /** The runners of the first `g` groups come first in the flat list, and
      group `g` follows them. */
  lemma FlatPrefix(groups: seq<GroupCfg>, g: nat)
    requires g < |groups|
    ensures Flat(groups[..g + 1]) == Flat(groups[..g]) + groups[g].runners
    ensures TotalRunners(groups[..g + 1]) == TotalRunners(groups[..g]) + |groups[g].runners|
    ensures GroupIndices(groups[..g + 1])
         == GroupIndices(groups[..g]) + [Group(Range(TotalRunners(groups[..g]), |groups[g].runners|))]
  {
    assert groups[..g + 1][..g] == groups[..g];
  }

  /** Flattening a longer prefix of the groups extends the flat list. */
  lemma {:induction false} FlatGrows(groups: seq<GroupCfg>, g: nat)
    requires g <= |groups|
    ensures |Flat(groups[..g])| <= |Flat(groups)|
    ensures Flat(groups)[..|Flat(groups[..g])|] == Flat(groups[..g])
    decreases |groups| - g
  {
    if g < |groups| {
      FlatPrefix(groups, g);
      FlatGrows(groups, g + 1);
    } else {
      assert groups[..g] == groups;
    }
  }

  /** Every recorded index finds its own runner: entry `k` of group `g`
      points at runner `k` of configuration group `g` in the flat list. */
  lemma {:induction false} GroupLookup(groups: seq<GroupCfg>, g: nat, k: nat)
    requires g < |groups| && k < |groups[g].runners|
    ensures |GroupIndices(groups)| == |groups|
    ensures |GroupIndices(groups)[g].runners| == |groups[g].runners|
    ensures GroupIndices(groups)[g].runners[k] < |Flat(groups)|
    ensures Flat(groups)[GroupIndices(groups)[g].runners[k]] == groups[g].runners[k]
    decreases |groups|
  {
    GroupCount(groups);
    var last := |groups| - 1;
    var init := groups[..last];
    FlatLength(init);
    if g == last {
      assert GroupIndices(groups)[g].runners[k] == TotalRunners(init) + k;
    } else {
      GroupLookup(init, g, k);
      GroupCount(init);
      assert GroupIndices(groups)[g] == GroupIndices(init)[g];
    }
  }

  /** The groups partition the runner indices: read one after the other,
      they list `0, 1, ..., n - 1` for `n` runners, each exactly once. */
  lemma {:induction false} GroupsPartitionRunners(groups: seq<GroupCfg>)
    ensures Concat(GroupIndices(groups)) == Range(0, TotalRunners(groups))
    decreases |groups|
  {
    if groups != [] {
      var init := groups[..|groups| - 1];
      var gs := GroupIndices(groups);
      GroupsPartitionRunners(init);
      assert gs[..|gs| - 1] == GroupIndices(init);
      assert Range(0, TotalRunners(init)) + Range(TotalRunners(init), |groups[|groups| - 1].runners|)
          == Range(0, TotalRunners(groups));
    }
  }

  /** Two groups of two and one runners give the index lists `[0, 1]` and
      `[2]`. */
  lemma GroupIndicesExample(a: RunnerCfg, b: RunnerCfg, c: RunnerCfg)
    ensures GroupIndices([GroupCfg([a, b]), GroupCfg([c])]) == [Group([0, 1]), Group([2])]
    ensures Flat([GroupCfg([a, b]), GroupCfg([c])]) == [a, b, c]
  {
    var groups := [GroupCfg([a, b]), GroupCfg([c])];
    var first := groups[..1];
    assert first == [GroupCfg([a, b])];
    assert first[..0] == [];
    assert Flat(first) == [a, b];
    assert TotalRunners(first) == 2;
    assert Range(0, 2) == [0, 1];
    assert GroupIndices(first) == [Group([0, 1])];
    assert Range(2, 1) == [2];
  }

  /** `App::default()` filled from the configuration by the loops of
      `main`. */
  method BuildApp(cfg: Cfg) returns (app: App)
    ensures fresh(app) && app.Valid()
    ensures |app.runners| == |Flat(cfg.groups)|
    ensures forall i :: 0 <= i < |app.runners| ==>
      fresh(app.runners[i]) && app.runners[i].IsInitial(Flat(cfg.groups)[i])
    ensures app.groups == GroupIndices(cfg.groups)
    ensures app.activeRunner == 0 && app.zoomedRunner == 0 && app.debugLines == []
    ensures !app.hasZoomedRunner && !app.shouldExit && !app.showTimestamps && !app.showHelp && !app.showDebug
  {
    app := new App();
    PushGroups(app, cfg.groups);
  }

  /** The loops of `main` that fill `App`: for each group, push its
      runners, then push the group of their indices. */
  method PushGroups(app: App, groups: seq<GroupCfg>)
    requires app.Valid() && app.runners == [] && app.groups == []
    modifies app`runners, app`groups
    ensures app.Valid()
    ensures |app.runners| == |Flat(groups)|
    ensures forall i :: 0 <= i < |app.runners| ==>
      fresh(app.runners[i]) && app.runners[i].IsInitial(Flat(groups)[i])
    ensures app.groups == GroupIndices(groups)
  {
    var g := 0;
    while g < |groups|
      invariant 0 <= g <= |groups|
      invariant app.Valid()
      invariant |app.runners| == |Flat(groups[..g])|
      invariant forall i :: 0 <= i < |app.runners| ==> fresh(app.runners[i])
      invariant forall i :: 0 <= i < |app.runners| ==> app.runners[i].IsInitial(Flat(groups[..g])[i])
      invariant app.groups == GroupIndices(groups[..g])
    {
      PushGroup(app, groups, g);
      g := g + 1;
    }
    assert groups[..g] == groups;
  }

  /** One iteration of the outer loop: push the runners of group `g` after
      those of the groups before it, and record the group of their indices. */
  method PushGroup(app: App, groups: seq<GroupCfg>, g: nat)
    requires g < |groups| && app.Valid()
    requires |app.runners| == |Flat(groups[..g])|
    requires forall i :: 0 <= i < |app.runners| ==> app.runners[i].IsInitial(Flat(groups[..g])[i])
    requires app.groups == GroupIndices(groups[..g])
    modifies app`runners, app`groups
    ensures app.Valid()
    ensures |app.runners| == |Flat(groups[..g + 1])| >= |old(app.runners)|
    ensures app.runners[..|old(app.runners)|] == old(app.runners)
    ensures forall i :: |old(app.runners)| <= i < |app.runners| ==> fresh(app.runners[i])
    ensures forall i :: 0 <= i < |app.runners| ==> app.runners[i].IsInitial(Flat(groups[..g + 1])[i])
    ensures app.groups == GroupIndices(groups[..g + 1])
  {
    FlatPrefix(groups, g);
    FlatLength(groups[..g]);
    ghost var before := app.runners;
    var group := PushRunners(app, groups[g].runners);
    InitialRunnersExtend(before, app.runners, Flat(groups[..g]), groups[g].runners);
    app.groups := app.groups + [Group(group)];
  }

  /** Runners matching their configurations, followed by runners matching
      more configurations, match the configurations one after the other. */
  lemma InitialRunnersExtend(before: seq<Runner>, now: seq<Runner>, cfgs: seq<RunnerCfg>, added: seq<RunnerCfg>)
    requires |before| == |cfgs| && |now| == |before| + |added| && now[..|before|] == before
    requires forall i :: 0 <= i < |before| ==> before[i].IsInitial(cfgs[i])
    requires forall i :: |before| <= i < |now| ==> now[i].IsInitial(added[i - |before|])
    ensures forall i :: 0 <= i < |now| ==> now[i].IsInitial((cfgs + added)[i])
  {
    forall i | 0 <= i < |now| ensures now[i].IsInitial((cfgs + added)[i]) {
      if i < |before| {
        assert now[i] == before[i];
      }
    }
  }

  /** The inner loop of `main`: for each runner of one group, record the
      index it is about to take, then push a fresh runner with its own
      channel. */
  method PushRunners(app: App, runners: seq<RunnerCfg>) returns (group: seq<nat>)
    requires app.Valid()
    modifies app`runners
    ensures app.Valid()
    ensures |app.runners| == |old(app.runners)| + |runners|
    ensures app.runners[..|old(app.runners)|] == old(app.runners)
    ensures forall i :: |old(app.runners)| <= i < |app.runners| ==>
      fresh(app.runners[i]) && app.runners[i].IsInitial(runners[i - |old(app.runners)|])
    ensures group == Range(|old(app.runners)|, |runners|)
  {
    ghost var start := app.runners;
    group := [];
    var k := 0;
    while k < |runners|
      invariant 0 <= k <= |runners|
      invariant app.Valid()
      invariant |app.runners| == |start| + k
      invariant app.runners[..|start|] == start
      invariant forall i :: |start| <= i < |app.runners| ==>
        fresh(app.runners[i]) && app.runners[i].IsInitial(runners[i - |start|])
      invariant group == Range(|start|, k)
    {
      RangeSnoc(|start|, k);
      group := group + [|app.runners|];
      var runner := new Runner(runners[k]);
      app.runners := app.runners + [runner];
      k := k + 1;
    }
  }

  /** The loops of the worker thread: the `index`-th runner in group, then
      runner, order is handed to a supervisor together with its own
      configuration. */
  method WorkerAssignments(cfg: Cfg) returns (work: seq<(nat, RunnerCfg)>)
    ensures |work| == |Flat(cfg.groups)|
    ensures forall i :: 0 <= i < |work| ==> work[i] == (i, Flat(cfg.groups)[i])
  {
    var groups := cfg.groups;
    work := [];
    var index := 0;
    var g := 0;
    while g < |groups|
      invariant 0 <= g <= |groups|
      invariant index == |work| == |Flat(groups[..g])|
      invariant forall i :: 0 <= i < |work| ==> work[i] == (i, Flat(groups[..g])[i])
    {
      FlatPrefix(groups, g);
      var runners := groups[g].runners;
      var k := 0;
      while k < |runners|
        invariant 0 <= k <= |runners|
        invariant index == |work| == |Flat(groups[..g])| + k
        invariant forall i :: 0 <= i < |work| ==> work[i] == (i, (Flat(groups[..g]) + runners[..k])[i])
      {
        work := work + [(index, runners[k])];
        assert (Flat(groups[..g]) + runners[..k + 1])[index] == runners[k];
        index := index + 1;
        k := k + 1;
      }
      assert runners[..k] == runners;
      g := g + 1;
    }
    assert groups[..g] == groups;
  }

  /** The supervisors the worker thread starts, one per assignment; each
      takes the channel of the runner whose index it was given. */
  method StartSupervisors(app: App, work: seq<(nat, RunnerCfg)>) returns (sups: seq<Supervisor>)
    requires forall i :: 0 <= i < |work| ==> work[i].0 < |app.runners|
    ensures |sups| == |work|
    ensures forall i :: 0 <= i < |sups| ==>
      fresh(sups[i]) && sups[i].Valid() && sups[i].app == app &&
      sups[i].index == work[i].0 && sups[i].config == work[i].1 &&
      sups[i].channel == app.runners[work[i].0].channel
  {
    sups := [];
    var i := 0;
    while i < |work|
      invariant 0 <= i <= |work| && |sups| == i
      invariant forall j :: 0 <= j < i ==>
        fresh(sups[j]) && sups[j].Valid() && sups[j].app == app &&
        sups[j].index == work[j].0 && sups[j].config == work[j].1 &&
        sups[j].channel == app.runners[work[j].0].channel
    {
      var sup := new Supervisor(app, work[i].0, work[i].1);
      sups := sups + [sup];
      i := i + 1;
    }
  }

  /** Startup as a whole: the supervisor started with index `i` runs the
      configuration of runner `i` and listens on runner `i`'s channel. */
  method Boot(cfg: Cfg) returns (app: App, sups: seq<Supervisor>)
    ensures fresh(app) && app.Valid() && |sups| == |app.runners| == |Flat(cfg.groups)|
    ensures forall i :: 0 <= i < |sups| ==>
      sups[i].index == i && sups[i].config == Flat(cfg.groups)[i] &&
      sups[i].config.name == app.runners[i].name && sups[i].config.args == app.runners[i].args &&
      sups[i].channel == app.runners[i].channel && sups[i].Valid()
  {
    app := BuildApp(cfg);
    var work := WorkerAssignments(cfg);
    sups := StartSupervisors(app, work);
  }
}
