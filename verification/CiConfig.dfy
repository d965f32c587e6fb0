/** CI configurations and their lookups (gitdot-config/src/ci.rs). */
module CiConfig {
  import opened Wrappers
  import opened TaskGraph

  datatype BuildTrigger = PullRequest | PushToMain

  datatype BuildConfig = BuildConfig(trigger: BuildTrigger, tasks: seq<string>)

  datatype TaskConfig = TaskConfig(name: string, command: string, waitsFor: Option<seq<string>>) {
    function Deps(): seq<string> {
      if waitsFor.Some? then waitsFor.value else []
    }
  }

  datatype CiError =
    | NoBuilds
    | NoTasks
    | DuplicateTaskName(name: string)
    | DuplicateBuildTrigger(trigger: BuildTrigger)
    | EmptyTaskList(build: nat)
    | EmptyCommand(name: string)
    | UnknownTaskReference(build: nat, name: string)
    | DuplicateTaskReference(build: nat, name: string)
    | OrphanedTask(name: string)
    | WaitsForUnknownTask(name: string, dep: string)
    | CyclicalDependency(cycle: seq<string>)
    | NoMatchingBuild(trigger: BuildTrigger)

  datatype CiConfig = CiConfig(builds: seq<BuildConfig>, tasks: seq<TaskConfig>) {
    function GetBuildConfig(trigger: BuildTrigger): (r: Result<BuildConfig, CiError>)
      ensures r.Ok? ==> r.value in builds && r.value.trigger == trigger
      ensures r.Err? <==> forall build | build in builds :: build.trigger != trigger
    {
      FindBuild(builds, trigger)
    }

    function GetTaskConfigs(build: BuildConfig): seq<TaskConfig> {
      TasksNamed(tasks, build.tasks)
    }

    function Defined(): set<string> {
      set task | task in tasks :: task.name
    }
  }

  function FindBuild(builds: seq<BuildConfig>, trigger: BuildTrigger): (r: Result<BuildConfig, CiError>)
    ensures r.Ok? ==> exists i | 0 <= i < |builds| :: builds[i] == r.value && IsFirst(builds, i, trigger)
    ensures r.Err? <==> forall build | build in builds :: build.trigger != trigger
  {
    if builds == [] then Err(NoMatchingBuild(trigger))
    else if builds[0].trigger == trigger then Ok(builds[0])
    else
      var r := FindBuild(builds[1..], trigger);
      assert r.Ok? ==> exists i | 0 < i < |builds| :: builds[i] == r.value && IsFirst(builds, i, trigger) by {
        if r.Ok? {
          var i :| 0 <= i < |builds[1..]| && builds[1..][i] == r.value && IsFirst(builds[1..], i, trigger);
          assert IsFirst(builds, i + 1, trigger);
        }
      }
      r
  }

  /** The first build with the trigger. */
  predicate IsFirst(builds: seq<BuildConfig>, i: nat, trigger: BuildTrigger)
    requires i < |builds|
  {
    builds[i].trigger == trigger && forall j | 0 <= j < i :: builds[j].trigger != trigger
  }

  /** The tasks whose names are listed, in the order of their definition. */
  function TasksNamed(tasks: seq<TaskConfig>, names: seq<string>): seq<TaskConfig> {
    if tasks == [] then []
    else (if tasks[0].name in names then [tasks[0]] else []) + TasksNamed(tasks[1..], names)
  }

  function Names(tasks: seq<TaskConfig>): seq<string> {
    seq(|tasks|, i requires 0 <= i < |tasks| => tasks[i].name)
  }

  // ---------- What a valid configuration promises ----------

  /** `to` waits for `from`, and both are defined. */
  ghost predicate WaitsOn(config: CiConfig, from: string, to: string) {
    from in config.Defined() && exists task | task in config.tasks :: task.name == to && from in task.Deps()
  }

  /** The graph has an edge from each defined task to the tasks that wait for it. */
  ghost predicate IsWaitGraph(config: CiConfig, adj: Adjacency) {
    adj.Keys == config.Defined() && forall from, to :: HasEdge(adj, from, to) <==> WaitsOn(config, from, to)
  }

  ghost predicate IsWaitCycle(config: CiConfig, walk: seq<string>) {
    && |walk| >= 2 && walk[0] == walk[|walk| - 1]
    && forall i, j | 0 <= i && j == i + 1 < |walk| :: WaitsOn(config, walk[i], walk[j])
  }

  ghost predicate NoWaitCycle(config: CiConfig) {
    forall walk :: !IsWaitCycle(config, walk)
  }

  ghost predicate WellFormed(config: CiConfig) {
    && config.builds != [] && config.tasks != []
    && Distinct(Names(config.tasks))
    && (forall i, j | 0 <= i < j < |config.builds| :: config.builds[i].trigger != config.builds[j].trigger)
    && (forall build | build in config.builds ::
          build.tasks != [] && Distinct(build.tasks) && ToSet(build.tasks) <= config.Defined())
    && (forall task | task in config.tasks ::
          && !IsBlank(task.command)
          && (exists build | build in config.builds :: task.name in build.tasks)
          && ToSet(task.Deps()) <= config.Defined())
    && NoWaitCycle(config)
  }

  /** Unicode White_Space, which `trim` strips. */
  predicate IsWhitespace(c: char) {
    var n := c as int;
    || 0x9 <= n <= 0xD || n == 0x20 || n == 0x85 || n == 0xA0 || n == 0x1680 || 0x2000 <= n <= 0x200A
    || n == 0x2028 || n == 0x2029 || n == 0x202F || n == 0x205F || n == 0x3000
  }

  predicate IsBlank(s: string) {
    forall c | c in s :: IsWhitespace(c)
  }

  // ---------- What its callers may rely on ----------

  lemma {:induction false} TasksNamedMembers(tasks: seq<TaskConfig>, names: seq<string>, task: TaskConfig)
    ensures task in TasksNamed(tasks, names) <==> task in tasks && task.name in names
  {
    if tasks != [] {
      TasksNamedMembers(tasks[1..], names, task);
    }
  }

  lemma {:induction false} TasksNamedDistinct(tasks: seq<TaskConfig>, names: seq<string>)
    requires Distinct(Names(tasks))
    ensures Distinct(Names(TasksNamed(tasks, names)))
    ensures ToSet(Names(TasksNamed(tasks, names))) <= ToSet(Names(tasks))
  {
    if tasks != [] {
      var first, rest := tasks[0], tasks[1..];
      var picked := TasksNamed(rest, names);
      assert Names(tasks) == [first.name] + Names(rest);
      assert ToSet(Names(tasks)) == {first.name} + ToSet(Names(rest));
      DistinctCons(first.name, Names(rest));
      TasksNamedDistinct(rest, names);
      if first.name in names {
        assert Names([first] + picked) == [first.name] + Names(picked);
        DistinctCons(first.name, Names(picked));
        assert first.name !in ToSet(Names(rest));
        assert ToSet([first.name] + Names(picked)) == {first.name} + ToSet(Names(picked));
      } else {
        assert [] + picked == picked;
      }
    }
  }

  /** A valid configuration gives exactly one task for each name in a build, and no others. */
  lemma TasksOfBuild(config: CiConfig, build: BuildConfig)
    requires WellFormed(config) && build in config.builds
    ensures Distinct(Names(config.GetTaskConfigs(build)))
    ensures ToSet(Names(config.GetTaskConfigs(build))) == ToSet(build.tasks)
    ensures |config.GetTaskConfigs(build)| == |build.tasks|
  {
    var found := config.GetTaskConfigs(build);
    TasksNamedDistinct(config.tasks, build.tasks);
    forall name | name in build.tasks ensures name in Names(found) {
      assert name in ToSet(build.tasks);
      var task :| task in config.tasks && task.name == name;
      TasksNamedMembers(config.tasks, build.tasks, task);
      var i :| 0 <= i < |found| && found[i] == task;
      assert Names(found)[i] == name;
    }
    forall i | 0 <= i < |found| ensures Names(found)[i] in build.tasks {
      TasksNamedMembers(config.tasks, build.tasks, found[i]);
    }
    assert ToSet(Names(found)) == ToSet(build.tasks);
    DistinctSize(Names(found));
    DistinctSize(build.tasks);
  }

  /** Each trigger has at most one build in a valid configuration, and the lookup finds it. */
  lemma BuildIsUnique(config: CiConfig, build: BuildConfig)
    requires WellFormed(config) && build in config.builds
    ensures config.GetBuildConfig(build.trigger) == Ok(build)
  {
    var found := config.GetBuildConfig(build.trigger).value;
    var i :| 0 <= i < |config.builds| && config.builds[i] == build;
    var j :| 0 <= j < |config.builds| && config.builds[j] == found;
    assert i == j;
  }

  lemma WaitGraphExists(config: CiConfig) returns (adj: Adjacency)
    ensures IsWaitGraph(config, adj) && (NoWaitCycle(config) <==> Acyclic(adj))
  {
    var from' := config.Defined();
    adj := map from | from in from' :: Waiters(config.tasks, from);
    forall from, to ensures HasEdge(adj, from, to) <==> WaitsOn(config, from, to) {
      WaitersAre(config.tasks, from, to);
    }
    SameCycles(config, adj);
  }

  /** The names of the tasks that wait for `from`. */
  function Waiters(tasks: seq<TaskConfig>, from: string): seq<string> {
    if tasks == [] then []
    else (if from in tasks[0].Deps() then [tasks[0].name] else []) + Waiters(tasks[1..], from)
  }

  lemma {:induction false} WaitersAre(tasks: seq<TaskConfig>, from: string, to: string)
    ensures to in Waiters(tasks, from) <==> exists task | task in tasks :: task.name == to && from in task.Deps()
  {
    if tasks != [] {
      WaitersAre(tasks[1..], from, to);
      assert forall task :: task in tasks <==> task == tasks[0] || task in tasks[1..];
    }
  }

  lemma SameCycles(config: CiConfig, adj: Adjacency)
    requires IsWaitGraph(config, adj)
    ensures forall walk :: IsCycle(adj, walk) <==> IsWaitCycle(config, walk)
    ensures NoWaitCycle(config) <==> Acyclic(adj)
  {
    forall walk ensures IsCycle(adj, walk) <==> IsWaitCycle(config, walk) {
      if IsCycle(adj, walk) {
        forall i, j | 0 <= i && j == i + 1 < |walk| ensures WaitsOn(config, walk[i], walk[j]) {
          assert HasEdge(adj, walk[i], walk[j]);
        }
      }
    }
  }

  /** The tasks can be put in an order in which every task comes after all that it waits for. */
  lemma ScheduleExists(config: CiConfig) returns (order: seq<string>)
    requires WellFormed(config)
    ensures Distinct(order) && ToSet(order) == config.Defined()
    ensures forall i, task, dep
      | 0 <= i < |order| && task in config.tasks && task.name == order[i] && dep in task.Deps() ::
              dep in order[..i]
  {
    var adj := WaitGraphExists(config);
    order := TopologicalOrderExists(adj, []);
    forall i, task, dep | 0 <= i < |order| && task in config.tasks && task.name == order[i] && dep in task.Deps()
      ensures dep in order[..i]
    {
      assert dep in ToSet(task.Deps());
      assert HasEdge(adj, dep, order[i]);
    }
  }

  /** Whatever tasks are completed, as long as some are left one of them can start. */
  lemma SomeTaskCanStart(config: CiConfig, completed: set<string>) returns (task: TaskConfig)
    requires WellFormed(config) && !(config.Defined() <= completed)
    ensures task in config.tasks && task.name !in completed && ToSet(task.Deps()) <= completed
  {
    var adj := WaitGraphExists(config);
    var left := config.Defined() - completed;
    var missing :| missing in config.Defined() && missing !in completed;
    assert missing in left;
    var name := SourceExists(adj, left);
    task :| task in config.tasks && task.name == name;
    forall dep | dep in task.Deps() ensures dep in completed {
      assert dep in ToSet(task.Deps());
      assert WaitsOn(config, dep, name);
    }
  }
}
