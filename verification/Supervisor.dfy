/** One update check of the supervisor, uninterrupted: the guards, the switch, the
    trial, and either the commit or the rollback. */
module Supervisor {
  import opened Common
  import opened UpdateFiles

  datatype Outcome = NotReady | UpToDate | Refused | DownloadFailed | Postponed | Updated | RolledBack

  predicate Newer(configured: bool, current: Option<Version>, release: Binary) {
    configured && current.Some? && Below(current.value, release.version)
  }

  class Updater {
    const files: UpdateTransaction
    var current: Option<Version>
    var blocked: Option<Version>

    constructor (files: UpdateTransaction)
      ensures this.files == files && current == files.installed && blocked == None
    {
      this.files := files;
      current, blocked := files.installed, None;
    }

    /** The check runs only while the installed executable answers health requests.
        fetched is what the download left in the staging file, after its own digest
        check and sync; stops and healthy are the worker's behaviour. */
    method CheckUpdate(configured: bool, release: Binary, fetched: bool, stops: bool, healthy: bool)
      returns (outcome: Outcome)
      requires !files.exe.Missing?
      modifies this, files
      ensures outcome.NotReady? <==> !configured || old(current).None?
      ensures outcome.UpToDate? <==>
        configured && old(current).Some? && AtMost(release.version, old(current).value)
      ensures outcome.Refused? <==> Newer(configured, old(current), release) && old(blocked) == Some(release.version)
      ensures outcome.DownloadFailed? <==>
        Newer(configured, old(current), release) && old(blocked) != Some(release.version) && !fetched
      ensures outcome.Postponed? <==>
        Newer(configured, old(current), release) && old(blocked) != Some(release.version) && fetched && !stops
      ensures outcome.Postponed? ==> files.staged == Synced(release)
      ensures outcome.Updated? || outcome.RolledBack? <==>
        configured && old(current).Some? && Below(old(current).value, release.version)
        && old(blocked) != Some(release.version) && fetched && stops
      ensures outcome.Updated? ==> healthy && current == Some(release.version) && blocked == None
      ensures outcome.Updated? ==> files.exe == Synced(release) && files.installed == Some(release.version)
      ensures outcome.RolledBack? ==> !healthy && current == old(current) && blocked == Some(release.version)
      ensures outcome.RolledBack? ==> files.exe == Flushed(old(files.exe)) && files.installed == old(current)
      ensures outcome.Updated? || outcome.RolledBack? ==>
        files.journal.None? && files.previous == Flushed(old(files.exe))
      ensures !outcome.Updated? && !outcome.RolledBack? ==>
        files.exe == old(files.exe) && files.previous == old(files.previous) && files.journal == old(files.journal)
        && files.installed == old(files.installed) && current == old(current) && blocked == old(blocked)
    {
      if current.Some? { EitherOrder(current.value, release.version); }
      if !configured || current.None? {
        return NotReady;
      }
      if !Below(current.value, release.version) {
        return UpToDate;
      }
      if blocked == Some(release.version) {
        return Refused;
      }
      files.staged := if fetched then Synced(release) else Missing;
      if !fetched {
        return DownloadFailed;
      }
      if !stops {
        return Postponed;
      }
      ghost var before := files.Now();
      var switched := files.Switch(release, current.value);
      SwitchResult(before, release, current.value);
      if healthy {
        ghost var trial := files.Now();
        files.Commit(release.version);
        Two(trial, WriteInstalled(release.version), DropJournal);
        current := Some(release.version);
        blocked := None;
        return Updated;
      }
      ghost var trial := files.Now();
      var recovery := files.Recover();
      if recovery.Restored? {
        RestoreResult(trial, recovery.journal);
      }
      blocked := Some(release.version);
      outcome := RolledBack;
    }
  }

  lemma EitherOrder(a: Version, b: Version)
    ensures AtMost(b, a) <==> !Below(a, b)
  {
  }

  lemma SwitchResult(d: Disk, release: Binary, previous: Version)
    requires d.staged == Synced(release)
    ensures After(d, SwitchProgram(release.version, previous)) ==
      Disk(Synced(release), Missing, Flushed(Copied(d.exe)), Some(Journal(release.version, previous)), d.installed)
  {
    SwitchUnrolls(d, release.version, previous);
    Two(d, BeginBackup, EndBackup);
  }

  lemma RestoreResult(d: Disk, j: Journal)
    ensures After(d, RestoreProgram(j)) ==
      Disk(Flushed(Copied(d.previous)), Missing, d.previous, None, Some(j.previous))
  {
    RestoreUnrolls(d, j);
    Two(d, BeginRestore, EndRestore);
  }
}
