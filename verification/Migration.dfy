/**
  The concurrent GitHub migration as a state machine (gitdot-core/src/service/migration.rs:199-313, 535-660).
  Every repository has a task of its own; each step of a task has one effect on the disk, the repository table or the
  migration's rows, and any step may fail or panic.
 */
module Migration {
  import opened Wrappers

  datatype Maker = Others | Task(t: nat)

  datatype Failure = InvalidName | LookupFailed | Conflict | MirrorFailed | ConfigureFailed | SetupFailed | CreateFailed

  /** How a task's work ended. `left` tells that the clean-up itself failed. */
  datatype Outcome = Migrated(name: string) | Rejected(failure: Failure, left: bool) | Panicked
  {
    /** The mirror stays on disk. A failure in configuring it returns before any clean-up. */
    predicate LeavesMirror() {
      Migrated? || (Rejected? && (left || failure.ConfigureFailed?))
    }
  }

  datatype Stage =
    | Spawned
    | Checking
    | Mirroring                       // nothing on disk yet
    | Cloning
    | Configuring
    | SettingUp(hooks: nat)           // old hooks removed first, then three installed
    | Creating
    | Describing
    | Deleting(failure: Failure)
    | Reporting(outcome: Outcome)
    | Linking(outcome: Outcome, reported: bool)
    | Ended(outcome: Outcome, reported: bool)
  {
    predicate HasMirror() {
      match this
      case Cloning | Configuring | SettingUp(_) | Creating | Describing | Deleting(_) => true
      case Reporting(outcome) => outcome.LeavesMirror()
      case Linking(outcome, _) => outcome.LeavesMirror()
      case Ended(outcome, _) => outcome.LeavesMirror()
      case _ => false
    }

    predicate HasRepository() {
      match this
      case Describing => true
      case Reporting(outcome) => outcome.Migrated?
      case Linking(outcome, _) => outcome.Migrated?
      case Ended(outcome, _) => outcome.Migrated?
      case _ => false
    }

    predicate HasPanicked() {
      Ended? && outcome.Panicked?
    }

    /** The steps a task has before it at most. */
    function Rank(): nat {
      match this
      case Spawned => 13
      case Checking => 12
      case Mirroring => 11
      case Cloning => 10
      case Configuring => 9
      case SettingUp(hooks) => if hooks < 3 then 8 - hooks else 5
      case Creating => 4
      case Describing | Deleting(_) => 3
      case Reporting(_) => 2
      case Linking(_, _) => 1
      case Ended(_, _) => 0
    }
  }

  datatype Status = Pending | Running | Completed | Failed

  datatype Row = Row(status: Status, destination: Option<string>)

  datatype Reply = NoReply | Response(names: seq<string>) | StatusError

  datatype State = State(
    fullNames: seq<string>,                  // the repositories to migrate, in request order
    disk: map<string, Maker>,                // mirrors of the destination owner
    repositories: map<string, Maker>,        // repository rows of the destination owner
    stages: seq<Stage>,
    rows: seq<Row>,
    joined: nat,
    migrated: seq<string>,
    allSucceeded: bool,
    status: Status,                          // of the whole migration
    reply: Reply)
  {
    predicate Shaped() {
      |fullNames| == |stages| == |rows|
    }

    function NameOf(t: nat): string
      requires t < |fullNames|
    {
      var name := RepoName(fullNames[t]);
      if name.Some? then name.value else ""
    }
  }

  function IndexOfSlash(s: string, from: nat): (i: nat)
    requires from <= |s|
    ensures from <= i <= |s|
    ensures i < |s| ==> s[i] == '/'
    ensures forall j | from <= j < i :: s[j] != '/'
    decreases |s| - from
  {
    if from == |s| || s[from] == '/' then from else IndexOfSlash(s, from + 1)
  }

  /** The second part of a name split at slashes: `full_name.split('/').nth(1)`. */
  function RepoName(fullName: string): Option<string> {
    var slash := IndexOfSlash(fullName, 0);
    if slash == |fullName| then None
    else Some(fullName[slash + 1..IndexOfSlash(fullName, slash + 1)])
  }

  lemma {:induction false} IndexOfSlashIs(s: string, from: nat, i: nat)
    requires from <= i <= |s| && (i < |s| ==> s[i] == '/')
    requires forall j | from <= j < i :: s[j] != '/'
    ensures IndexOfSlash(s, from) == i
    decreases i - from
  {
    if from < i {
      IndexOfSlashIs(s, from + 1, i);
    }
  }

  lemma RepoNameOfPath(owner: string, name: string)
    requires '/' !in owner && '/' !in name
    ensures RepoName(owner + "/" + name) == Some(name)
  {
    var path := owner + "/" + name;
    IndexOfSlashIs(path, 0, |owner|);
    IndexOfSlashIs(path, |owner| + 1, |path|);
    assert path[|owner| + 1..|path|] == name;
  }

  function Start(fullNames: seq<string>, disk: map<string, Maker>, repositories: map<string, Maker>): State {
    var n := |fullNames|;
    State(fullNames, disk, repositories, seq(n, _ => Spawned), seq(n, _ => Row(Pending, None)),
          0, [], true, Running, NoReply)
  }

  datatype Event =
    | Advance(t: nat, ok: bool)
    | Panic(t: nat)
    | OtherRepository(name: string)          // created by somebody else meanwhile
    | Join
    | Finish(ok: bool)

  predicate Enabled(s: State, e: Event)
    requires s.Shaped()
  {
    match e
    case Advance(t, _) => t < |s.stages| && !s.stages[t].Ended?
    case Panic(t) => t < |s.stages| && !s.stages[t].Ended?
    case OtherRepository(name) => name !in s.disk && name !in s.repositories
    case Join => s.joined < |s.stages| && s.stages[s.joined].Ended?
    case Finish(_) => s.joined == |s.stages| && s.reply.NoReply?
  }

  function Apply(s: State, e: Event): (next: State)
    requires s.Shaped() && Enabled(s, e)
    ensures next.Shaped()
  {
    match e
    case Advance(t, ok) => ApplyEffect(s, t, TaskEffect(s, t, ok))
    case Panic(t) => ApplyEffect(s, t, Enter(Ended(Panicked, false)))
    case OtherRepository(name) =>
      s.(disk := s.disk[name := Others], repositories := s.repositories[name := Others])
    case Join => JoinTask(s, s.stages[s.joined])
    case Finish(ok) =>
      if ok then s.(status := if s.allSucceeded then Completed else Failed, reply := Response(s.migrated))
      else s.(reply := StatusError)
  }

  /** What one step of a task does to the disk or the repository table, at the name of its repository. */
  datatype Change = Keep | Add | Remove

  datatype Effect = Effect(stage: Stage, mirror: Change, repository: Change, status: Option<Status>, links: bool)

  function Enter(stage: Stage): Effect {
    Effect(stage, Keep, Keep, None, false)
  }

  function Reject(failure: Failure): Effect {
    Enter(Reporting(Rejected(failure, false)))
  }

  /** Writing a row's status is best effort: the task goes on either way. */
  function EnterWriting(stage: Stage, status: Status, ok: bool): Effect {
    Effect(stage, Keep, Keep, if ok then Some(status) else None, false)
  }

  /** One step of a task; `ok` tells whether the operation it attempts works. */
  function EffectOf(stage: Stage, ok: bool, name: Option<string>, onDisk: bool, inTable: bool): Effect {
    match stage
    case Spawned => EnterWriting(Checking, Running, ok)
    case Checking =>
      if name.None? then Reject(InvalidName)
      else if !ok then Reject(LookupFailed)
      else if inTable then Reject(Conflict)
      else Enter(Mirroring)
    case Mirroring =>
      if !ok || onDisk then Reject(MirrorFailed) else Effect(Cloning, Add, Keep, None, false)
    case Cloning =>
      if ok then Enter(Configuring) else Reject(MirrorFailed).(mirror := Remove)   // git removes a failed clone
    case Configuring =>
      if ok then Enter(SettingUp(0)) else Reject(ConfigureFailed)
    case SettingUp(hooks) =>
      if !ok then Enter(Deleting(SetupFailed)) else Enter(if hooks < 3 then SettingUp(hooks + 1) else Creating)
    case Creating =>
      if !ok || inTable then Enter(Deleting(CreateFailed)) else Effect(Describing, Keep, Add, None, false)
    case Describing => Enter(Reporting(if name.Some? then Migrated(name.value) else Rejected(InvalidName, false)))
    case Deleting(failure) =>
      Effect(Reporting(Rejected(failure, !ok)), if ok then Remove else Keep, Keep, None, false)
    case Reporting(outcome) =>
      if outcome.Migrated? then EnterWriting(Linking(outcome, ok), Completed, ok)
      else EnterWriting(Ended(outcome, ok), Failed, ok)
    case Linking(outcome, reported) => Enter(Ended(outcome, reported)).(links := ok)
    case Ended(_, _) => Enter(stage)
  }

  function Changed(owners: map<string, Maker>, name: string, t: nat, change: Change): map<string, Maker> {
    match change
    case Keep => owners
    case Add => owners[name := Task(t)]
    case Remove => owners - {name}
  }

  function ApplyEffect(s: State, t: nat, e: Effect): State
    requires s.Shaped() && t < |s.stages|
  {
    var row := s.rows[t];
    s.(stages := s.stages[t := e.stage],
       disk := Changed(s.disk, s.NameOf(t), t, e.mirror),
       repositories := Changed(s.repositories, s.NameOf(t), t, e.repository),
       rows := s.rows[t := Row(if e.status.Some? then e.status.value else row.status,
                               if e.links then Some(s.NameOf(t)) else row.destination)])
  }

  function TaskEffect(s: State, t: nat, ok: bool): Effect
    requires s.Shaped() && t < |s.stages|
  {
    EffectOf(s.stages[t], ok, RepoName(s.fullNames[t]), s.NameOf(t) in s.disk, s.NameOf(t) in s.repositories)
  }

  function JoinTask(s: State, stage: Stage): State {
    if stage.Ended? && stage.outcome.Migrated?
    then s.(joined := s.joined + 1, migrated := s.migrated + [stage.outcome.name])
    else s.(joined := s.joined + 1, allSucceeded := false)
  }

  predicate IsRun(first: State, states: seq<State>, events: seq<Event>) {
    && |states| == |events| + 1 && states[0] == first
    && forall i | 0 <= i < |events| ::
      && states[i].Shaped() && Enabled(states[i], events[i])
      && states[i + 1] == Apply(states[i], events[i])
  }
}
