/** What the migration leaves behind, for every interleaving of its tasks and every failure of their steps. */
module MigrationSaga {
  import opened Wrappers
  import opened Migration

  /** The mirror of the task's repository is on disk, and this task made it. */
  predicate OnDisk(s: State, t: nat)
    requires s.Shaped() && t < |s.stages|
  {
    s.NameOf(t) in s.disk && s.disk[s.NameOf(t)] == Task(t)
  }

  predicate InTable(s: State, t: nat)
    requires s.Shaped() && t < |s.stages|
  {
    s.NameOf(t) in s.repositories && s.repositories[s.NameOf(t)] == Task(t)
  }

  /** What a task has made is what its stage says, unless it panicked. */
  ghost predicate Accounted(s: State, t: nat)
    requires s.Shaped() && t < |s.stages|
  {
    && (s.stages[t].HasMirror() ==> OnDisk(s, t))
    && (OnDisk(s, t) ==> s.stages[t].HasMirror() || s.stages[t].HasPanicked())
    && (s.stages[t].HasRepository() ==> InTable(s, t))
    && (InTable(s, t) ==> s.stages[t].HasRepository() || s.stages[t].HasPanicked())
  }

  /** A task past the check has a name to work on, and a success names it. */
  predicate Coherent(s: State, t: nat)
    requires s.Shaped() && t < |s.stages|
  {
    match s.stages[t]
    case Reporting(Migrated(name)) => name == s.NameOf(t)
    case Reporting(Panicked) => false
    case Linking(outcome, _) => outcome == Migrated(s.NameOf(t))
    case Ended(Migrated(name), _) => name == s.NameOf(t)
    case Deleting(failure) => RepoName(s.fullNames[t]).Some? && !failure.ConfigureFailed?
    case Spawned | Checking => true
    case Ended(_, _) => true
    case Reporting(_) => true
    case _ => RepoName(s.fullNames[t]).Some?
  }

  /** The row's status follows the task's outcome whenever the write got through. */
  predicate RowFollows(s: State, t: nat)
    requires s.Shaped() && t < |s.stages|
  {
    match s.stages[t]
    case Linking(_, reported) => if reported then s.rows[t].status == Completed else !IsFinal(s.rows[t].status)
    case Ended(Panicked, _) => s.rows[t].status != Failed
    case Ended(outcome, reported) =>
      if reported then s.rows[t].status == if outcome.Migrated? then Completed else Failed
      else !IsFinal(s.rows[t].status)
    case _ => !IsFinal(s.rows[t].status)
  }

  predicate IsFinal(status: Status) {
    status.Completed? || status.Failed?
  }

  ghost predicate TasksAccounted(s: State) {
    s.Shaped() && forall t | 0 <= t < |s.stages| :: Accounted(s, t) && Coherent(s, t) && RowFollows(s, t)
  }

  /** On disk and in the table a task takes only a free name, and removes only the mirror it made itself. */
  ghost predicate IsOwn(s: State, t: nat, e: Effect)
    requires s.Shaped() && t < |s.stages|
  {
    && (e.mirror.Add? ==> s.NameOf(t) !in s.disk)
    && (e.mirror.Remove? ==> OnDisk(s, t))
    && (e.repository.Add? ==> s.NameOf(t) !in s.repositories)
    && !e.repository.Remove?
  }

  lemma EffectsAreOwn(s: State, t: nat, ok: bool)
    requires s.Shaped() && t < |s.stages| && Accounted(s, t)
    ensures IsOwn(s, t, TaskEffect(s, t, ok))
  {}

  lemma OthersAreLeftAlone(s: State, t: nat, e: Effect, u: nat)
    requires s.Shaped() && t < |s.stages| && u < |s.stages| && t != u && IsOwn(s, t, e)
    ensures var next := ApplyEffect(s, t, e);
            && next.stages[u] == s.stages[u] && next.rows[u] == s.rows[u]
            && (OnDisk(next, u) <==> OnDisk(s, u)) && (InTable(next, u) <==> InTable(s, u))
  {}

  lemma OwnAccounted(s: State, t: nat, ok: bool)
    requires s.Shaped() && t < |s.stages| && !s.stages[t].Ended? && Accounted(s, t) && Coherent(s, t)
    ensures Accounted(ApplyEffect(s, t, TaskEffect(s, t, ok)), t)
  {}

  lemma OwnRow(s: State, t: nat, ok: bool)
    requires s.Shaped() && t < |s.stages| && !s.stages[t].Ended? && Coherent(s, t) && RowFollows(s, t)
    ensures var next := ApplyEffect(s, t, TaskEffect(s, t, ok)); Coherent(next, t) && RowFollows(next, t)
  {}

  lemma OwnPanic(s: State, t: nat)
    requires s.Shaped() && t < |s.stages| && !s.stages[t].Ended? && Accounted(s, t) && RowFollows(s, t)
    ensures var next := ApplyEffect(s, t, Enter(Ended(Panicked, false)));
            Accounted(next, t) && Coherent(next, t) && RowFollows(next, t)
  {}

  lemma SameAccount(s: State, next: State, u: nat)
    requires s.Shaped() && next.Shaped() && u < |s.stages| == |next.stages| && s.fullNames == next.fullNames
    requires next.stages[u] == s.stages[u] && next.rows[u] == s.rows[u]
    requires (OnDisk(next, u) <==> OnDisk(s, u)) && (InTable(next, u) <==> InTable(s, u))
    requires Accounted(s, u) && Coherent(s, u) && RowFollows(s, u)
    ensures Accounted(next, u) && Coherent(next, u) && RowFollows(next, u)
  {}

  lemma OthersStep(s: State, e: Event, u: nat)
    requires TasksAccounted(s) && Enabled(s, e) && u < |s.stages| && !((e.Advance? || e.Panic?) && e.t == u)
    ensures Accounted(Apply(s, e), u) && Coherent(Apply(s, e), u) && RowFollows(Apply(s, e), u)
  {
    if e.Advance? {
      assert Accounted(s, e.t);
      EffectsAreOwn(s, e.t, e.ok);
      OthersAreLeftAlone(s, e.t, TaskEffect(s, e.t, e.ok), u);
    } else if e.Panic? {
      OthersAreLeftAlone(s, e.t, Enter(Ended(Panicked, false)), u);
    }
    SameAccount(s, Apply(s, e), u);
  }

  lemma TasksStep(s: State, e: Event)
    requires TasksAccounted(s) && Enabled(s, e)
    ensures TasksAccounted(Apply(s, e))
  {
    var next := Apply(s, e);
    forall u | 0 <= u < |next.stages| ensures Accounted(next, u) && Coherent(next, u) && RowFollows(next, u) {
      assert Accounted(s, u) && Coherent(s, u) && RowFollows(s, u);
      if e.Advance? && e.t == u {
        OwnAccounted(s, u, e.ok);
        OwnRow(s, u, e.ok);
      } else if e.Panic? && e.t == u {
        OwnPanic(s, u);
      } else {
        OthersStep(s, e, u);
      }
    }
  }

  // ---------- The joining loop ----------

  /** What the first `n` tasks achieved, in request order. */
  function Successes(stages: seq<Stage>, n: nat): seq<string>
    requires n <= |stages|
  {
    if n == 0 then []
    else if HasMigrated(stages[n - 1]) then Successes(stages, n - 1) + [stages[n - 1].outcome.name]
    else Successes(stages, n - 1)
  }

  predicate HasMigrated(stage: Stage) {
    stage.Ended? && stage.outcome.Migrated?
  }

  ghost predicate Joined(s: State) {
    && s.Shaped() && s.joined <= |s.stages|
    && (forall t | 0 <= t < s.joined :: s.stages[t].Ended?)
    && s.migrated == Successes(s.stages, s.joined)
    && (s.allSucceeded <==> forall t | 0 <= t < s.joined :: HasMigrated(s.stages[t]))
  }

  ghost predicate Replied(s: State) {
    && s.Shaped()
    && (s.reply.NoReply? ==> s.status == Running)
    && (s.reply.StatusError? ==> s.status == Running)
    && (!s.reply.NoReply? ==> s.joined == |s.stages|)
    && (s.reply.Response? ==>
          && s.reply.names == s.migrated
          && s.status == if s.allSucceeded then Completed else Failed)
  }

  lemma {:induction false} SuccessesOfPrefix(a: seq<Stage>, b: seq<Stage>, n: nat)
    requires n <= |a| && n <= |b| && forall t | 0 <= t < n :: a[t] == b[t]
    ensures Successes(a, n) == Successes(b, n)
  {
    if n > 0 {
      SuccessesOfPrefix(a, b, n - 1);
    }
  }

  lemma EndedStays(s: State, e: Event, t: nat)
    requires s.Shaped() && Enabled(s, e) && t < |s.stages| && s.stages[t].Ended?
    ensures Apply(s, e).stages[t] == s.stages[t]
  {}

  lemma JoinedStep(s: State, e: Event)
    requires Joined(s) && Enabled(s, e)
    ensures Joined(Apply(s, e))
  {
    var next := Apply(s, e);
    forall t | 0 <= t < s.joined ensures next.stages[t] == s.stages[t] {
      EndedStays(s, e, t);
    }
    SuccessesOfPrefix(s.stages, next.stages, s.joined);
    if e.Join? {
      assert HasMigrated(s.stages[s.joined]) || !HasMigrated(s.stages[s.joined]);
    }
  }

  // ---------- Whole runs ----------

  /** Nothing on disk or in the table was made by the tasks before they start. */
  ghost predicate IsFresh(owners: map<string, Maker>) {
    forall name | name in owners :: owners[name] == Others
  }

  ghost predicate Kept(first: map<string, Maker>, now: map<string, Maker>) {
    forall name | name in first :: name in now && now[name] == first[name]
  }

  lemma RepliedStep(s: State, e: Event)
    requires Joined(s) && Replied(s) && Enabled(s, e)
    ensures Replied(Apply(s, e)) && Apply(s, e).fullNames == s.fullNames
  {}

  /** Nobody but the task that made a mirror ever removes it; repository rows are never removed. */
  lemma OnlyTheMakerRemoves(s: State, e: Event, name: string)
    requires TasksAccounted(s) && Enabled(s, e)
    ensures name in s.repositories ==>
              name in Apply(s, e).repositories && Apply(s, e).repositories[name] == s.repositories[name]
    ensures name in s.disk && !(name in Apply(s, e).disk && Apply(s, e).disk[name] == s.disk[name]) ==>
              e.Advance? && s.disk[name] == Task(e.t)
  {
    if e.Advance? {
      assert Accounted(s, e.t);
      EffectsAreOwn(s, e.t, e.ok);
    }
  }

  lemma KeptStep(s: State, e: Event, disk: map<string, Maker>, table: map<string, Maker>)
    requires TasksAccounted(s) && Enabled(s, e)
    requires IsFresh(disk) && Kept(disk, s.disk) && Kept(table, s.repositories)
    ensures Kept(disk, Apply(s, e).disk) && Kept(table, Apply(s, e).repositories)
  {
    forall name | name in disk ensures name in Apply(s, e).disk && Apply(s, e).disk[name] == disk[name] {
      OnlyTheMakerRemoves(s, e, name);
    }
    forall name | name in table
      ensures name in Apply(s, e).repositories && Apply(s, e).repositories[name] == table[name]
    {
      OnlyTheMakerRemoves(s, e, name);
    }
  }

  ghost predicate Invariant(s: State) {
    TasksAccounted(s) && Joined(s) && Replied(s)
  }

  lemma {:induction false} RunInvariant(
    names: seq<string>, disk: map<string, Maker>, table: map<string, Maker>, states: seq<State>, events: seq<Event>,
    i: nat)
    requires IsFresh(disk) && IsFresh(table) && IsRun(Start(names, disk, table), states, events) && i < |states|
    ensures Invariant(states[i]) && states[i].fullNames == names
    ensures Kept(disk, states[i].disk) && Kept(table, states[i].repositories)
  {
    if i > 0 {
      RunInvariant(names, disk, table, states, events, i - 1);
      var s, e := states[i - 1], events[i - 1];
      TasksStep(s, e);
      JoinedStep(s, e);
      RepliedStep(s, e);
      KeptStep(s, e, disk, table);
    }
  }

  // ---------- Theorems ----------

  /** The operation that left a mirror behind: configuring it failed after the clone, or removing it did. */
  predicate FailsWithMirror(s: State, e: Event, t: nat)
    requires t < |s.stages|
  {
    e == Advance(t, false) && (s.stages[t].Configuring? || s.stages[t].Deleting?)
  }

  ghost predicate FailedWithMirror(states: seq<State>, events: seq<Event>, i: nat, t: nat)
    requires i <= |events| <= |states|
  {
    exists j | 0 <= j < i :: t < |states[j].stages| && FailsWithMirror(states[j], events[j], t)
  }

  /** What a stage remembers of such a failure. */
  predicate RemembersMirror(stage: Stage) {
    match stage
    case Reporting(outcome) => outcome.LeavesMirror() && !outcome.Migrated?
    case Linking(outcome, _) => outcome.LeavesMirror() && !outcome.Migrated?
    case Ended(outcome, _) => outcome.LeavesMirror() && !outcome.Migrated?
    case _ => false
  }

  lemma MemoryStep(s: State, e: Event, t: nat)
    requires TasksAccounted(s) && Enabled(s, e) && t < |s.stages| && !Apply(s, e).stages[t].HasPanicked()
    ensures RemembersMirror(Apply(s, e).stages[t]) <==> RemembersMirror(s.stages[t]) || FailsWithMirror(s, e, t)
  {
    assert Coherent(s, t);
  }

  lemma NotPanickedBefore(s: State, e: Event, t: nat)
    requires s.Shaped() && Enabled(s, e) && t < |s.stages| && !Apply(s, e).stages[t].HasPanicked()
    ensures !s.stages[t].HasPanicked()
  {
    if s.stages[t].HasPanicked() {
      EndedStays(s, e, t);
    }
  }

  lemma {:induction false} StagesRemember(
    names: seq<string>, disk: map<string, Maker>, table: map<string, Maker>, states: seq<State>, events: seq<Event>,
    i: nat, t: nat)
    requires IsFresh(disk) && IsFresh(table) && IsRun(Start(names, disk, table), states, events) && i < |states|
    requires t < |names| == |states[i].stages| && !states[i].stages[t].HasPanicked()
    ensures RemembersMirror(states[i].stages[t]) <==> FailedWithMirror(states, events, i, t)
  {
    if i > 0 {
      var s, e := states[i - 1], events[i - 1];
      RunInvariant(names, disk, table, states, events, i - 1);
      NotPanickedBefore(s, e, t);
      StagesRemember(names, disk, table, states, events, i - 1, t);
      MemoryStep(s, e, t);
      assert FailedWithMirror(states, events, i, t)
        <==> FailedWithMirror(states, events, i - 1, t) || FailsWithMirror(s, e, t);
    }
  }

  /**
    Once a task ended without a panic, the repository's row is there exactly if the task succeeded. Its mirror is on
    disk without the row exactly if configuring it failed after the clone, or removing it failed.
   */
  lemma MirrorIffRepository(
    names: seq<string>, disk: map<string, Maker>, table: map<string, Maker>, states: seq<State>, events: seq<Event>,
    i: nat, t: nat)
    requires IsFresh(disk) && IsFresh(table) && IsRun(Start(names, disk, table), states, events) && i < |states|
    requires states[i].Shaped() && t < |names| == |states[i].stages|
    requires states[i].stages[t].Ended? && !states[i].stages[t].outcome.Panicked?
    ensures InTable(states[i], t) <==> states[i].stages[t].outcome.Migrated?
    ensures InTable(states[i], t) ==> OnDisk(states[i], t)
    ensures OnDisk(states[i], t) && !InTable(states[i], t) <==> FailedWithMirror(states, events, i, t)
  {
    RunInvariant(names, disk, table, states, events, i);
    assert Accounted(states[i], t);
    StagesRemember(names, disk, table, states, events, i, t);
  }

  /** A migration of one repository that has got so far. */
  function Single(fullName: string, stage: Stage, status: Status, disk: map<string, Maker>): State {
    State([fullName], disk, map[], [stage], [Row(status, None)], 0, [], true, Running, NoReply)
  }

  /** One step of its task, with the effect of the step worked out. */
  lemma SingleStep(
    fullName: string, name: string, stage: Stage, status: Status, disk: map<string, Maker>, ok: bool, e: Effect)
    requires RepoName(fullName) == Some(name) && !stage.Ended?
    requires e == EffectOf(stage, ok, Some(name), name in disk, false) && !e.links && e.repository.Keep?
    ensures var s := Single(fullName, stage, status, disk);
            && Enabled(s, Advance(0, ok))
            && Apply(s, Advance(0, ok)) == Single(fullName, e.stage, if e.status.Some? then e.status.value else status,
                                                  Changed(disk, name, 0, e.mirror))
  {}

  /** The clone works, configuring it does not. */
  function LeavingStates(fullName: string, name: string): (states: seq<State>)
    ensures |states| == 7
  {
    var mirror, outcome := map[name := Task(0)], Rejected(ConfigureFailed, false);
    [Single(fullName, Spawned, Pending, map[]), Single(fullName, Checking, Running, map[]),
     Single(fullName, Mirroring, Running, map[]), Single(fullName, Cloning, Running, mirror),
     Single(fullName, Configuring, Running, mirror), Single(fullName, Reporting(outcome), Running, mirror),
     Single(fullName, Ended(outcome, true), Failed, mirror)]
  }

  function LeavingEvent(i: nat): Event {
    Advance(0, i != 4)
  }

  ghost predicate FollowsLeaving(fullName: string, name: string, i: nat)
    requires i < 6
  {
    var states := LeavingStates(fullName, name);
    && states[i].Shaped() && Enabled(states[i], LeavingEvent(i))
    && states[i + 1] == Apply(states[i], LeavingEvent(i))
  }

  lemma CloningFollows(fullName: string, name: string, i: nat)
    requires RepoName(fullName) == Some(name) && i < 3
    ensures FollowsLeaving(fullName, name, i)
  {
    match i
    case 0 => SingleStep(fullName, name, Spawned, Pending, map[], true, EnterWriting(Checking, Running, true));
    case 1 => SingleStep(fullName, name, Checking, Running, map[], true, Enter(Mirroring));
    case 2 => SingleStep(fullName, name, Mirroring, Running, map[], true, Effect(Cloning, Add, Keep, None, false));
  }

  lemma FailingFollows(fullName: string, name: string, i: nat)
    requires RepoName(fullName) == Some(name) && 3 <= i < 6
    ensures FollowsLeaving(fullName, name, i)
  {
    var mirror, outcome := map[name := Task(0)], Rejected(ConfigureFailed, false);
    match i
    case 3 => SingleStep(fullName, name, Cloning, Running, mirror, true, Enter(Configuring));
    case 4 => SingleStep(fullName, name, Configuring, Running, mirror, false, Reject(ConfigureFailed));
    case 5 =>
      var ending := EnterWriting(Ended(outcome, true), Failed, true);
      SingleStep(fullName, name, Reporting(outcome), Running, mirror, true, ending);
  }

  /** The promise to clean up fails, for any repository: its clone works and configuring it does not. */
  lemma MirrorLeftBehind(fullName: string, name: string) returns (states: seq<State>, events: seq<Event>)
    requires RepoName(fullName) == Some(name)
    ensures IsRun(Start([fullName], map[], map[]), states, events)
    ensures states[|events|].Shaped() && states[|events|].stages == [Ended(Rejected(ConfigureFailed, false), true)]
    ensures states[|events|].disk == map[name := Task(0)] && states[|events|].repositories == map[]
  {
    states, events := LeavingStates(fullName, name), seq(6, i requires 0 <= i => LeavingEvent(i));
    forall i | 0 <= i < 6
      ensures states[i].Shaped() && Enabled(states[i], events[i]) && states[i + 1] == Apply(states[i], events[i])
    {
      if i < 3 {
        CloningFollows(fullName, name, i);
      } else {
        FailingFollows(fullName, name, i);
      }
    }
  }

  /** What was there before is still there, with its maker. */
  lemma OthersAreKept(
    names: seq<string>, disk: map<string, Maker>, table: map<string, Maker>, states: seq<State>, events: seq<Event>,
    i: nat, name: string)
    requires IsFresh(disk) && IsFresh(table) && IsRun(Start(names, disk, table), states, events) && i < |states|
    ensures name in disk ==> name in states[i].disk && states[i].disk[name] == Others
    ensures name in table ==> name in states[i].repositories && states[i].repositories[name] == Others
  {
    RunInvariant(names, disk, table, states, events, i);
  }

  /** The row of a task that ended without a panic is final exactly if its last status write worked, and then right. */
  lemma RowsAreFinal(
    names: seq<string>, disk: map<string, Maker>, table: map<string, Maker>, states: seq<State>, events: seq<Event>,
    i: nat, t: nat)
    requires IsFresh(disk) && IsFresh(table) && IsRun(Start(names, disk, table), states, events) && i < |states|
    requires states[i].Shaped() && t < |names| == |states[i].stages|
    requires states[i].stages[t].Ended? && !states[i].stages[t].outcome.Panicked?
    ensures var status := states[i].rows[t].status;
            && (IsFinal(status) <==> states[i].stages[t].reported)
            && (IsFinal(status) ==> (status.Completed? <==> states[i].stages[t].outcome.Migrated?))
  {
    RunInvariant(names, disk, table, states, events, i);
    assert RowFollows(states[i], t);
  }

  /** The response is the successes in request order, and the migration is Completed iff there was nothing else. */
  lemma ResponseIsTheSuccesses(
    names: seq<string>, disk: map<string, Maker>, table: map<string, Maker>, states: seq<State>, events: seq<Event>,
    i: nat)
    requires IsFresh(disk) && IsFresh(table) && IsRun(Start(names, disk, table), states, events) && i < |states|
    requires states[i].Shaped() && states[i].reply.Response?
    ensures forall t | 0 <= t < |states[i].stages| :: states[i].stages[t].Ended?
    ensures states[i].reply.names == Successes(states[i].stages, |states[i].stages|)
    ensures states[i].status.Completed? <==> forall t | 0 <= t < |states[i].stages| :: HasMigrated(states[i].stages[t])
    ensures states[i].status.Completed? || states[i].status.Failed?
  {
    RunInvariant(names, disk, table, states, events, i);
  }

  /** Nothing panics, and every last status write of a task works. */
  ghost predicate RunsWell(states: seq<State>, events: seq<Event>, i: nat)
    requires i <= |events| <= |states|
  {
    forall j | 0 <= j < i :: !events[j].Panic? && !LosesReport(states[j], events[j])
  }

  predicate LosesReport(s: State, e: Event) {
    e.Advance? && !e.ok && e.t < |s.stages| && s.stages[e.t].Reporting?
  }

  predicate IsReported(stage: Stage) {
    match stage
    case Linking(_, reported) => reported
    case Ended(outcome, reported) => reported && !outcome.Panicked?
    case _ => true
  }

  lemma ReportedStep(s: State, e: Event, t: nat)
    requires TasksAccounted(s) && Enabled(s, e) && t < |s.stages| && IsReported(s.stages[t])
    requires !e.Panic? && !LosesReport(s, e)
    ensures IsReported(Apply(s, e).stages[t])
  {
    assert Coherent(s, t);
  }

  lemma {:induction false} AllReported(
    names: seq<string>, disk: map<string, Maker>, table: map<string, Maker>, states: seq<State>, events: seq<Event>,
    i: nat, t: nat)
    requires IsFresh(disk) && IsFresh(table) && IsRun(Start(names, disk, table), states, events) && i < |states|
    requires RunsWell(states, events, i) && t < |names|
    ensures t < |states[i].stages| && IsReported(states[i].stages[t])
  {
    RunInvariant(names, disk, table, states, events, i);
    if i > 0 {
      RunInvariant(names, disk, table, states, events, i - 1);
      AllReported(names, disk, table, states, events, i - 1, t);
      ReportedStep(states[i - 1], events[i - 1], t);
    }
  }

  /** If nothing panics and the status writes work, every row is final, and the migration Completed iff all rows are. */
  lemma CompletedIffAllRows(
    names: seq<string>, disk: map<string, Maker>, table: map<string, Maker>, states: seq<State>, events: seq<Event>,
    i: nat)
    requires IsFresh(disk) && IsFresh(table) && IsRun(Start(names, disk, table), states, events) && i < |states|
    requires RunsWell(states, events, i) && states[i].Shaped() && states[i].reply.Response?
    ensures forall t | 0 <= t < |states[i].rows| :: IsFinal(states[i].rows[t].status)
    ensures states[i].status.Completed? <==> forall t | 0 <= t < |states[i].rows| :: states[i].rows[t].status.Completed?
  {
    ResponseIsTheSuccesses(names, disk, table, states, events, i);
    RunInvariant(names, disk, table, states, events, i);
    forall t | 0 <= t < |states[i].rows|
      ensures IsFinal(states[i].rows[t].status)
      ensures states[i].rows[t].status.Completed? <==> HasMigrated(states[i].stages[t])
    {
      AllReported(names, disk, table, states, events, i, t);
      RowsAreFinal(names, disk, table, states, events, i, t);
    }
  }

  /** Two tasks never succeed with the same repository, so the response names each repository once. */
  lemma SuccessesAreDistinct(
    names: seq<string>, disk: map<string, Maker>, table: map<string, Maker>, states: seq<State>, events: seq<Event>,
    i: nat, t: nat, u: nat)
    requires IsFresh(disk) && IsFresh(table) && IsRun(Start(names, disk, table), states, events) && i < |states|
    requires t < |states[i].stages| && u < |states[i].stages|
    requires HasMigrated(states[i].stages[t]) && HasMigrated(states[i].stages[u])
    requires states[i].stages[t].outcome.name == states[i].stages[u].outcome.name
    ensures t == u
  {
    RunInvariant(names, disk, table, states, events, i);
    assert Accounted(states[i], t) && Coherent(states[i], t);
    assert Accounted(states[i], u) && Coherent(states[i], u);
  }

  // ---------- Progress ----------

  function TotalRank(stages: seq<Stage>, n: nat): nat
    requires n <= |stages|
  {
    if n == 0 then 0 else TotalRank(stages, n - 1) + stages[n - 1].Rank()
  }

  /** The steps of the migration still to come at most: those of its tasks, the joins and the reply. */
  function Remaining(s: State): int
    requires s.Shaped()
  {
    TotalRank(s.stages, |s.stages|) + (|s.stages| - s.joined) + if s.reply.NoReply? then 1 else 0
  }

  lemma {:induction false} RankFalls(stages: seq<Stage>, t: nat, stage: Stage, n: nat)
    requires t < |stages| && n <= |stages| && stage.Rank() < stages[t].Rank()
    ensures if t < n then TotalRank(stages[t := stage], n) < TotalRank(stages, n)
            else TotalRank(stages[t := stage], n) == TotalRank(stages, n)
  {
    if n > 0 {
      RankFalls(stages, t, stage, n - 1);
    }
  }

  lemma StageFalls(stage: Stage, ok: bool, name: Option<string>, onDisk: bool, inTable: bool)
    requires !stage.Ended?
    ensures EffectOf(stage, ok, name, onDisk, inTable).stage.Rank() < stage.Rank()
  {}

  /** Every step but other people's brings the migration closer to its reply, whatever fails. */
  lemma EveryStepCounts(s: State, e: Event)
    requires Invariant(s) && Enabled(s, e)
    ensures 0 <= Remaining(Apply(s, e)) <= Remaining(s)
    ensures !e.OtherRepository? ==> Remaining(Apply(s, e)) < Remaining(s)
  {
    JoinedStep(s, e);
    match e
    case Advance(t, ok) =>
      StageFalls(s.stages[t], ok, RepoName(s.fullNames[t]), s.NameOf(t) in s.disk, s.NameOf(t) in s.repositories);
      RankFalls(s.stages, t, TaskEffect(s, t, ok).stage, |s.stages|);
    case Panic(t) => RankFalls(s.stages, t, Ended(Panicked, false), |s.stages|);
    case _ =>
  }

  /** Until the reply some step is possible, so the migration always comes to an end. */
  lemma NeverStuck(s: State) returns (e: Event)
    requires Invariant(s) && s.reply.NoReply?
    ensures Enabled(s, e) && !e.OtherRepository?
  {
    if s.joined == |s.stages| {
      e := Finish(true);
    } else if s.stages[s.joined].Ended? {
      e := Join;
    } else {
      e := Advance(s.joined, true);
    }
  }
}
