/**
  One repository's migration as the service runs it, with its clean-up, and the loop that joins the tasks
  (gitdot-core/src/service/migration.rs:199-313, 561-658).
 */
module MigrationService {
  import opened Wrappers
  import opened Migration
  import opened MigrationSaga

  /** Every operation on the way to a repository row works. */
  predicate AllWork(works: Stage -> bool) {
    && works(Checking) && works(Mirroring) && works(Cloning) && works(Configuring)
    && HooksWork(works) && works(Creating)
  }

  predicate HooksWork(works: Stage -> bool) {
    forall hooks | 0 <= hooks <= 3 :: works(SettingUp(hooks))
  }

  /** The clone works, and then configuring it fails, or the set-up fails and so does the clean-up. */
  predicate LeavesMirror(works: Stage -> bool) {
    && works(Checking) && works(Mirroring) && works(Cloning)
    && (!works(Configuring)
        || (!HooksWork(works) && !works(Deleting(SetupFailed)))
        || (HooksWork(works) && !works(Creating) && !works(Deleting(CreateFailed))))
  }

  class Service {
    var disk: map<string, Maker>
    var repositories: map<string, Maker>

    constructor (disk: map<string, Maker>, repositories: map<string, Maker>)
      ensures this.disk == disk && this.repositories == repositories
    {
      this.disk, this.repositories := disk, repositories;
    }

    /**
      Clones and configures; `works` tells which operations succeed. A failed clone leaves nothing, a failed
      configuration does.
     */
    method MirrorRepo(t: nat, name: string, works: Stage -> bool) returns (r: Result<(), Failure>)
      modifies this`disk
      ensures r.Ok? ==> name !in old(disk) && disk == old(disk)[name := Task(t)]
      ensures r == Err(ConfigureFailed) ==> name !in old(disk) && disk == old(disk)[name := Task(t)]
      ensures r.Err? ==> r.error in {MirrorFailed, ConfigureFailed}
      ensures r == Err(MirrorFailed) ==> disk == old(disk)
      ensures r == Err(ConfigureFailed) <==>
        name !in old(disk) && works(Mirroring) && works(Cloning) && !works(Configuring)
      ensures r.Ok? <==> name !in old(disk) && works(Mirroring) && works(Cloning) && works(Configuring)
    {
      if !works(Mirroring) || name in disk {
        return Err(MirrorFailed);
      }
      disk := disk[name := Task(t)];
      if !works(Cloning) {
        disk := disk - {name};
        return Err(MirrorFailed);
      }
      if !works(Configuring) {
        return Err(ConfigureFailed);
      }
      return Ok(());
    }

    method SetupMirroredRepository(t: nat, name: string, works: Stage -> bool) returns (r: Result<string, Failure>)
      modifies this`repositories
      ensures r.Ok? ==>
        r.value == name && name !in old(repositories) && repositories == old(repositories)[name := Task(t)]
      ensures r.Err? ==> repositories == old(repositories) && r.error in {SetupFailed, CreateFailed}
      ensures r.Ok? <==> HooksWork(works) && works(Creating) && name !in old(repositories)
      ensures r == Err(SetupFailed) <==> !HooksWork(works)
    {
      if !works(SettingUp(0)) || !works(SettingUp(1)) || !works(SettingUp(2)) || !works(SettingUp(3)) {
        return Err(SetupFailed);
      }
      if !works(Creating) || name in repositories {
        return Err(CreateFailed);
      }
      repositories := repositories[name := Task(t)];
      return Ok(name);
    }

    /** All or nothing, except for a mirror whose configuration or whose removal failed. */
    method MigrateSingleRepository(
      t: nat, fullName: string, works: Stage -> bool) returns (r: Result<string, Failure>, left: bool)
      modifies this
      ensures r.Ok? ==>
        && RepoName(fullName) == Some(r.value) && r.value !in old(disk) && r.value !in old(repositories)
        && disk == old(disk)[r.value := Task(t)] && repositories == old(repositories)[r.value := Task(t)]
      ensures r.Err? ==> repositories == old(repositories)
      ensures r.Err? && !left ==> disk == old(disk)
      ensures left ==>
        && r.Err? && RepoName(fullName).Some? && RepoName(fullName).value !in old(disk)
        && disk == old(disk)[RepoName(fullName).value := Task(t)]
      ensures left <==>
        && RepoName(fullName).Some? && LeavesMirror(works)
        && RepoName(fullName).value !in old(disk) && RepoName(fullName).value !in old(repositories)
      ensures r.Ok? <==>
        && RepoName(fullName).Some? && AllWork(works)
        && RepoName(fullName).value !in old(disk) && RepoName(fullName).value !in old(repositories)
    {
      left := false;
      var name := RepoName(fullName);
      if name.None? {
        return Err(InvalidName), left;
      }
      if !works(Checking) {
        return Err(LookupFailed), left;
      }
      if name.value in repositories {
        return Err(Conflict), left;
      }
      var mirrored := MirrorRepo(t, name.value, works);
      if mirrored.Err? {
        left := mirrored.error.ConfigureFailed?;
        return Err(mirrored.error), left;
      }
      r := SetupMirroredRepository(t, name.value, works);
      if r.Err? {
        if works(Deleting(r.error)) {
          disk := disk - {name.value};
          assert disk == old(disk);
        } else {
          left := true;
        }
      }
    }
  }

  /** The loop over the task handles, once their tasks have ended. */
  method JoinAll(handles: seq<Stage>) returns (migrated: seq<string>, allSucceeded: bool)
    ensures migrated == Successes(handles, |handles|)
    ensures allSucceeded <==> forall t | 0 <= t < |handles| :: HasMigrated(handles[t])
  {
    migrated, allSucceeded := [], true;
    for t := 0 to |handles|
      invariant migrated == Successes(handles, t)
      invariant allSucceeded <==> forall u | 0 <= u < t :: HasMigrated(handles[u])
    {
      match handles[t]
      case Ended(Migrated(name), _) => migrated := migrated + [name];
      case _ => allSucceeded := false;
    }
  }
}
