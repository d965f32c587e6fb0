/** Validation of CI configurations (gitdot-config/src/validate.rs). */
module Validate {
  import opened Wrappers
  import opened TaskGraph
  import opened CiConfig
  import opened DagCheck

  /** The element is at two positions. */
  ghost predicate Repeats<T>(s: seq<T>, x: T) {
    exists i, j | 0 <= i < j < |s| :: s[i] == x == s[j]
  }

  function Triggers(builds: seq<BuildConfig>): seq<BuildTrigger> {
    seq(|builds|, i requires 0 <= i < |builds| => builds[i].trigger)
  }

  /** What each kind of error says about a configuration. */
  ghost predicate Wrong(config: CiConfig, error: CiError) {
    match error
    case NoBuilds => config.builds == []
    case NoTasks => config.tasks == []
    case DuplicateTaskName(name) => Repeats(Names(config.tasks), name)
    case DuplicateBuildTrigger(trigger) => Repeats(Triggers(config.builds), trigger)
    case EmptyTaskList(build) => build < |config.builds| && config.builds[build].tasks == []
    case EmptyCommand(name) => exists task | task in config.tasks :: task.name == name && IsBlank(task.command)
    case UnknownTaskReference(build, name) =>
      build < |config.builds| && name in config.builds[build].tasks && name !in config.Defined()
    case DuplicateTaskReference(build, name) => build < |config.builds| && Repeats(config.builds[build].tasks, name)
    case OrphanedTask(name) =>
      (exists task | task in config.tasks :: task.name == name)
      && forall build | build in config.builds :: name !in build.tasks
    case WaitsForUnknownTask(name, dep) =>
      (exists task | task in config.tasks :: task.name == name && dep in task.Deps()) && dep !in config.Defined()
    case CyclicalDependency(cycle) => IsWaitCycle(config, cycle)
    case NoMatchingBuild(_) => false
  }

  // ---------- Duplicates ----------

  lemma RepeatsExtend<T>(s: seq<T>, k: nat)
    requires k < |s|
    ensures s[..k + 1] == s[..k] + [s[k]] && ToSet(s[..k + 1]) == ToSet(s[..k]) + {s[k]}
    ensures forall x :: Repeats(s[..k + 1], x) <==> Repeats(s[..k], x) || (x == s[k] && x in ToSet(s[..k]))
  {
    var before, after := s[..k], s[..k + 1];
    assert after == before + [s[k]];
    forall x ensures Repeats(after, x) <==> Repeats(before, x) || (x == s[k] && x in ToSet(before)) {
      if i, j :| 0 <= i < j < |before| && before[i] == x == before[j] {
        assert after[i] == x == after[j];
      } else if x == s[k] && x in before {
        var i :| 0 <= i < k && before[i] == x;
        assert after[i] == x == after[k];
      }
      if i, j :| 0 <= i < j < |after| && after[i] == x == after[j] {
        assert before[i] == x;
        assert j < k ==> before[j] == x;
      }
    }
  }

  lemma DistinctOrRepeats<T>(s: seq<T>)
    ensures Distinct(s) <==> forall x :: !Repeats(s, x)
  {
    if i, j :| 0 <= i < j < |s| && s[i] == s[j] {
      assert Repeats(s, s[i]);
    }
  }

  /** The elements that `seen` already had when they came up again. */
  method Repeated<T(==)>(items: seq<T>) returns (repeated: seq<T>)
    ensures forall x :: x in repeated <==> Repeats(items, x)
  {
    var seen: set<T> := {};
    repeated := [];
    for k := 0 to |items|
      invariant seen == ToSet(items[..k])
      invariant forall x :: x in repeated <==> Repeats(items[..k], x)
    {
      RepeatsExtend(items, k);
      if items[k] in seen {
        repeated := repeated + [items[k]];
      }
      seen := seen + {items[k]};
    }
    assert items[..|items|] == items;
  }

  method CheckDuplicateTaskNames(config: CiConfig) returns (errors: seq<CiError>)
    ensures forall error :: error in errors <==> error.DuplicateTaskName? && Wrong(config, error)
  {
    var repeated := Repeated(Names(config.tasks));
    errors := seq(|repeated|, i requires 0 <= i < |repeated| => DuplicateTaskName(repeated[i]));
    forall name | name in repeated ensures DuplicateTaskName(name) in errors {
      var i :| 0 <= i < |repeated| && repeated[i] == name;
      assert errors[i] == DuplicateTaskName(name);
    }
  }

  method CheckDuplicateBuildTriggers(config: CiConfig) returns (errors: seq<CiError>)
    ensures forall error :: error in errors <==> error.DuplicateBuildTrigger? && Wrong(config, error)
  {
    var repeated := Repeated(Triggers(config.builds));
    errors := seq(|repeated|, i requires 0 <= i < |repeated| => DuplicateBuildTrigger(repeated[i]));
    forall trigger | trigger in repeated ensures DuplicateBuildTrigger(trigger) in errors {
      var i :| 0 <= i < |repeated| && repeated[i] == trigger;
      assert errors[i] == DuplicateBuildTrigger(trigger);
    }
  }

  method CheckDuplicateTaskRefsInBuild(config: CiConfig) returns (errors: seq<CiError>)
    ensures forall error :: error in errors <==> error.DuplicateTaskReference? && Wrong(config, error)
  {
    errors := [];
    for b := 0 to |config.builds|
      invariant forall error :: error in errors <==>
                  error.DuplicateTaskReference? && error.build < b && Wrong(config, error)
    {
      var repeated := Repeated(config.builds[b].tasks);
      var more := seq(|repeated|, i requires 0 <= i < |repeated| => DuplicateTaskReference(b, repeated[i]));
      forall name | name in repeated ensures DuplicateTaskReference(b, name) in more {
        var i :| 0 <= i < |repeated| && repeated[i] == name;
        assert more[i] == DuplicateTaskReference(b, name);
      }
      errors := errors + more;
    }
  }

  // ---------- References ----------

  function CheckNonEmpty(config: CiConfig): (errors: seq<CiError>)
    ensures forall error :: error in errors <==> (error.NoBuilds? || error.NoTasks?) && Wrong(config, error)
  {
    (if config.builds == [] then [NoBuilds] else []) + (if config.tasks == [] then [NoTasks] else [])
  }

  function CheckEmptyBuildTaskLists(config: CiConfig): (errors: seq<CiError>)
    ensures forall error :: error in errors <==> error.EmptyTaskList? && Wrong(config, error)
  {
    EmptyListsBefore(config, |config.builds|)
  }

  function EmptyListsBefore(config: CiConfig, n: nat): (errors: seq<CiError>)
    requires n <= |config.builds|
    ensures forall error :: error in errors <==> error.EmptyTaskList? && error.build < n && Wrong(config, error)
  {
    if n == 0 then []
    else EmptyListsBefore(config, n - 1) + if config.builds[n - 1].tasks == [] then [EmptyTaskList(n - 1)] else []
  }

  function CheckEmptyCommands(tasks: seq<TaskConfig>): (errors: seq<CiError>)
    ensures forall error :: error in errors <==>
              error.EmptyCommand? && exists task | task in tasks :: task.name == error.name && IsBlank(task.command)
  {
    if tasks == [] then []
    else
      assert forall task :: task in tasks <==> task == tasks[0] || task in tasks[1..];
      (if IsBlank(tasks[0].command) then [EmptyCommand(tasks[0].name)] else []) + CheckEmptyCommands(tasks[1..])
  }

  function Referenced(builds: seq<BuildConfig>): (names: set<string>)
    ensures forall name :: name in names <==> exists build | build in builds :: name in build.tasks
  {
    set build, name | build in builds && name in build.tasks :: name
  }

  function CheckNoOrphanedTasks(tasks: seq<TaskConfig>, referenced: set<string>): (errors: seq<CiError>)
    ensures forall error :: error in errors <==>
              error.OrphanedTask? && error.name !in referenced && exists task | task in tasks :: task.name == error.name
  {
    if tasks == [] then []
    else
      assert forall task :: task in tasks <==> task == tasks[0] || task in tasks[1..];
      (if tasks[0].name !in referenced then [OrphanedTask(tasks[0].name)] else [])
      + CheckNoOrphanedTasks(tasks[1..], referenced)
  }

  method CheckTaskReferences(config: CiConfig) returns (errors: seq<CiError>)
    ensures forall error :: error in errors <==> error.UnknownTaskReference? && Wrong(config, error)
  {
    var defined := config.Defined();
    errors := [];
    for b := 0 to |config.builds|
      invariant forall error :: error in errors <==>
                  error.UnknownTaskReference? && error.build < b && Wrong(config, error)
    {
      var refs := config.builds[b].tasks;
      for i := 0 to |refs|
        invariant forall error :: error in errors <==>
                    error.UnknownTaskReference? && Wrong(config, error)
                    && (error.build < b || (error.build == b && error.name in refs[..i]))
      {
        if refs[i] !in defined {
          errors := errors + [UnknownTaskReference(b, refs[i])];
        }
      }
    }
  }

  method CheckWaitsForUnknownTasks(config: CiConfig) returns (errors: seq<CiError>)
    ensures forall error :: error in errors <==> error.WaitsForUnknownTask? && Wrong(config, error)
  {
    var defined := config.Defined();
    errors := [];
    for t := 0 to |config.tasks|
      invariant forall error :: error in errors <==>
                  error.WaitsForUnknownTask? && error.dep !in defined
                  && exists k | 0 <= k < t :: config.tasks[k].name == error.name && error.dep in config.tasks[k].Deps()
    {
      var task := config.tasks[t];
      var deps := task.Deps();
      ghost var before := errors;
      for i := 0 to |deps|
        invariant forall error :: error in errors <==>
                    error in before || (error.WaitsForUnknownTask? && error.dep !in defined && error.name == task.name
                                        && error.dep in deps[..i])
      {
        if deps[i] !in defined {
          errors := errors + [WaitsForUnknownTask(task.name, deps[i])];
        }
      }
    }
  }

  // ---------- Cycles ----------

  /** Adds the edges of one task: from each defined task that it waits for. */
  method AddTask(adj: Adjacency, task: TaskConfig, defined: set<string>) returns (more: Adjacency)
    requires adj.Keys <= defined && task.name in defined
    ensures more.Keys <= defined && adj.Keys + {task.name} <= more.Keys
    ensures forall from, to :: HasEdge(more, from, to) <==>
              HasEdge(adj, from, to) || (to == task.name && from in task.Deps() && from in defined)
  {
    more := if task.name in adj then adj else adj[task.name := []];
    var deps := task.Deps();
    for i := 0 to |deps|
      invariant more.Keys <= defined && adj.Keys + {task.name} <= more.Keys
      invariant forall from, to :: HasEdge(more, from, to) <==>
                  HasEdge(adj, from, to) || (to == task.name && from in deps[..i] && from in defined)
    {
      if deps[i] in defined {
        var entry := if deps[i] in more then more[deps[i]] else [];
        more := more[deps[i] := entry + [task.name]];
      }
    }
  }

  method BuildGraph(config: CiConfig) returns (adj: Adjacency)
    ensures IsWaitGraph(config, adj)
  {
    var defined := config.Defined();
    adj := map[];
    for t := 0 to |config.tasks|
      invariant adj.Keys <= defined && forall k | 0 <= k < t :: config.tasks[k].name in adj
      invariant forall from, to :: HasEdge(adj, from, to) <==>
                  && from in defined
                  && exists k | 0 <= k < t :: config.tasks[k].name == to && from in config.tasks[k].Deps()
    {
      assert config.tasks[t] in config.tasks;
      adj := AddTask(adj, config.tasks[t], defined);
    }
    forall from, to ensures HasEdge(adj, from, to) <==> WaitsOn(config, from, to) {
      if from in defined {
        if task :| task in config.tasks && task.name == to && from in task.Deps() {
          var k :| 0 <= k < |config.tasks| && config.tasks[k] == task;
        }
      }
    }
  }

  /**
    Cycle detection is sound and complete: no error if and only if no tasks wait
    for each other in a cycle, whatever the order in which the nodes are visited;
    and every error names a cycle.
   */
  method CheckDag(config: CiConfig, nodes: seq<string>) returns (errors: seq<CiError>)
    requires ToSet(nodes) == config.Defined()
    ensures errors == [] <==> NoWaitCycle(config)
    ensures forall error | error in errors :: error.CyclicalDependency? && Wrong(config, error)
  {
    var adj := BuildGraph(config);
    SameCycles(config, adj);
    forall from, to | HasEdge(adj, from, to) ensures to in adj {
      assert WaitsOn(config, from, to);
    }
    var search := new Search(adj);
    search.Run(nodes);
    var found := search.errors;
    errors := seq(|found|, i requires 0 <= i < |found| => CyclicalDependency(found[i]));
    forall error | error in errors ensures error.CyclicalDependency? && Wrong(config, error) {
      assert error.cycle in found;
    }
  }

  // ---------- All checks ----------

  /** A configuration is well formed exactly when nothing is wrong with it. */
  lemma WellFormedMeansNothingWrong(config: CiConfig)
    ensures WellFormed(config) <==> forall error :: !Wrong(config, error)
  {
    DistinctOrRepeats(Names(config.tasks));
    DistinctOrRepeats(Triggers(config.builds));
    forall build | build in config.builds
      ensures Distinct(build.tasks) <==> forall name :: !Repeats(build.tasks, name)
    {
      DistinctOrRepeats(build.tasks);
    }
    if forall error :: !Wrong(config, error) {
      NothingWrongIsWellFormed(config);
    }
  }

  lemma NothingWrongIsWellFormed(config: CiConfig)
    requires forall error :: !Wrong(config, error)
    ensures WellFormed(config)
  {
    assert !Wrong(config, NoBuilds) && !Wrong(config, NoTasks);
    forall name ensures !Repeats(Names(config.tasks), name) {
      assert !Wrong(config, DuplicateTaskName(name));
    }
    DistinctOrRepeats(Names(config.tasks));
    forall i, j | 0 <= i < j < |config.builds| ensures config.builds[i].trigger != config.builds[j].trigger {
      assert !Wrong(config, DuplicateBuildTrigger(config.builds[i].trigger));
      var triggers := Triggers(config.builds);
      assert triggers[i] == config.builds[i].trigger && triggers[j] == config.builds[j].trigger;
    }
    forall build | build in config.builds
      ensures build.tasks != [] && Distinct(build.tasks) && ToSet(build.tasks) <= config.Defined()
    {
      var b :| 0 <= b < |config.builds| && config.builds[b] == build;
      NothingWrongInBuild(config, b);
    }
    forall task | task in config.tasks
      ensures !IsBlank(task.command) && ToSet(task.Deps()) <= config.Defined()
      ensures exists build | build in config.builds :: task.name in build.tasks
    {
      assert !Wrong(config, EmptyCommand(task.name)) && !Wrong(config, OrphanedTask(task.name));
      forall dep | dep in task.Deps() ensures dep in config.Defined() {
        assert !Wrong(config, WaitsForUnknownTask(task.name, dep));
      }
    }
    forall walk ensures !IsWaitCycle(config, walk) {
      assert !Wrong(config, CyclicalDependency(walk));
    }
  }

  lemma NothingWrongInBuild(config: CiConfig, b: nat)
    requires b < |config.builds| && forall error :: !Wrong(config, error)
    ensures var build := config.builds[b];
      build.tasks != [] && Distinct(build.tasks) && ToSet(build.tasks) <= config.Defined()
  {
    assert !Wrong(config, EmptyTaskList(b));
    forall name ensures !Repeats(config.builds[b].tasks, name) {
      assert !Wrong(config, DuplicateTaskReference(b, name));
    }
    DistinctOrRepeats(config.builds[b].tasks);
    forall name | name in config.builds[b].tasks ensures name in config.Defined() {
      assert !Wrong(config, UnknownTaskReference(b, name));
    }
  }

  predicate AboutOneList(error: CiError) {
    error.NoBuilds? || error.NoTasks? || error.DuplicateTaskName? || error.DuplicateBuildTrigger?
    || error.EmptyTaskList? || error.EmptyCommand?
  }

  predicate AboutReferences(error: CiError) {
    error.UnknownTaskReference? || error.DuplicateTaskReference? || error.OrphanedTask? || error.WaitsForUnknownTask?
  }

  /** The checks of each list by itself. */
  method CheckLists(config: CiConfig) returns (errors: seq<CiError>)
    ensures forall error :: error in errors <==> Wrong(config, error) && AboutOneList(error)
  {
    var names := CheckDuplicateTaskNames(config);
    var triggers := CheckDuplicateBuildTriggers(config);
    errors := CheckNonEmpty(config) + names + triggers
      + CheckEmptyBuildTaskLists(config) + CheckEmptyCommands(config.tasks);
  }

  /** The checks of references between builds and tasks. */
  method CheckReferences(config: CiConfig) returns (errors: seq<CiError>)
    ensures forall error :: error in errors <==> Wrong(config, error) && AboutReferences(error)
  {
    var unknown := CheckTaskReferences(config);
    var repeated := CheckDuplicateTaskRefsInBuild(config);
    var waits := CheckWaitsForUnknownTasks(config);
    errors := unknown + repeated + CheckNoOrphanedTasks(config.tasks, Referenced(config.builds)) + waits;
  }

  /** Validation accepts exactly the well-formed configurations; otherwise it reports what is wrong. */
  method ValidateCiConfig(config: CiConfig, nodes: seq<string>) returns (r: Result<(), seq<CiError>>)
    requires ToSet(nodes) == config.Defined()
    ensures r.Ok? <==> WellFormed(config)
    ensures r.Err? ==> forall error | error in r.error :: Wrong(config, error)
    ensures r.Err? ==> forall error | Wrong(config, error) && !error.CyclicalDependency? :: error in r.error
  {
    var lists := CheckLists(config);
    var references := CheckReferences(config);
    var cycles := CheckDag(config, nodes);
    var errors := lists + references + cycles;
    WellFormedMeansNothingWrong(config);
    if errors == [] {
      return Ok(());
    }
    assert errors[0] in errors && Wrong(config, errors[0]);
    return Err(errors);
  }
}
