/** The supervisor over whole runs: updates, trials, commits, rollbacks, and power
    loss or process death between any two file operations, recovery included. */
module UpdateRuns {
  import opened Common
  import opened UpdateFiles

  datatype Mode =
    | Down                            // nothing runs; the next step is a boot
    | Idle                            // the installed collector runs
    | Switching(release: Binary)
    | Trial(release: Binary)          // the new collector is being watched
    | Committing(release: Binary)
    | Recovering

  // base is the binary of the last settled state, goal that of the latest update.
  datatype System = System(disk: Disk, mode: Mode, todo: seq<Op>, base: Binary, goal: Binary)

  datatype Step =
    | Boot
    | Operate
    | Recovered
    | Download(file: File)
    | Begin(release: Binary)
    | Switched
    | Approve
    | Committed
    | Fail                            // an exception; the handler recovers
    | Abandon                         // recover itself raised, the process lives on
    | Crash(disk: Disk)

  // The running collector's version, which a health answer reports and a check
  // compares with the release before it starts.
  function CurrentVersion(d: Disk): Option<Version> {
    match d.exe
    case Synced(b) => Some(b.version)
    case Cached(b) => Some(b.version)
    case _ => None
  }

  predicate Can(s: System, step: Step) {
    match step
    case Boot => s.mode == Down
    case Operate => s.todo != []
    case Recovered => s.mode == Recovering && s.todo == []
    case Download(_) => s.mode == Idle
    case Begin(release) =>
      && s.mode == Idle && s.disk.staged == Synced(release)
      && CurrentVersion(s.disk).Some? && Below(CurrentVersion(s.disk).value, release.version)
    case Switched => s.mode.Switching? && s.todo == []
    case Approve => s.mode.Trial?
    case Committed => s.mode.Committing? && s.todo == []
    case Fail => s.mode.Switching? || s.mode.Trial? || s.mode.Committing?
    case Abandon => s.mode == Recovering
    case Crash(d) => CrashOf(s.disk, d)
  }

  function Next(s: System, step: Step): System
    requires Can(s, step)
  {
    match step
    case Boot => s.(mode := Recovering, todo := RecoverProgram(s.disk))
    case Operate =>
      var disk := Perform(s.disk, s.todo[0]);
      var settles := s.todo[0] == DropJournal && (disk.exe.Synced? || disk.exe.Cached?);
      s.(disk := disk, todo := s.todo[1..], base := if settles then disk.exe.bin else s.base)
    case Recovered => s.(mode := Idle)
    case Download(file) => s.(disk := s.disk.(staged := file))
    case Begin(release) =>
      s.(mode := Switching(release), goal := release,
         todo := SwitchProgram(release.version, CurrentVersion(s.disk).value))
    case Switched => s.(mode := Trial(s.mode.release))
    case Approve => s.(mode := Committing(s.mode.release), todo := CommitProgram(s.mode.release.version))
    case Committed => s.(mode := Idle)
    case Fail => s.(mode := Recovering, todo := RecoverProgram(s.disk))
    case Abandon => s.(mode := Idle, todo := [])
    case Crash(d) => s.(disk := d, mode := Down, todo := [])
  }

  // No update begins while a journal of an earlier one is still there.
  predicate Orderly(s: System, step: Step) { step.Begin? ==> s.disk.journal.None? }

  predicate Runs(s: System, steps: seq<Step>)
    decreases steps
  {
    steps == [] || (Can(s, steps[0]) && Orderly(s, steps[0]) && Runs(Next(s, steps[0]), steps[1..]))
  }

  function Run(s: System, steps: seq<Step>): System
    requires Runs(s, steps)
    decreases steps
  {
    if steps == [] then s else Run(Next(s, steps[0]), steps[1..])
  }

  // ----- the invariant ----------------------------------------------------

  // What holds of the disk between any two operations.
  predicate Safe(s: System) {
    var d := s.disk;
    && d.exe.Synced?
    && (d.journal.None? ==> d.exe == Synced(s.base) && (d.installed.Some? ==> d.installed.value == s.base.version))
    && (d.journal.Some? ==>
          && d.previous == Synced(s.base)
          && d.journal.value == Journal(s.goal.version, s.base.version)
          && Below(s.base.version, s.goal.version)
          && (d.exe == Synced(s.base) || d.exe == Synced(s.goal)))
  }

  // Where a program stands, told by how many operations are left.
  predicate Progress(s: System) {
    var d, n := s.disk, |s.todo|;
    match s.mode
    case Down => s.todo == []
    case Idle => s.todo == []
    case Switching(release) =>
      && release == s.goal && Below(s.base.version, release.version)
      && n <= 5 && s.todo == SwitchProgram(release.version, s.base.version)[5 - n..]
      && (n >= 2 ==> d.journal.None?) && (n <= 1 ==> d.journal.Some?)
      && (n >= 1 ==> d.staged == Synced(release) && d.exe == Synced(s.base))
      && (n == 3 ==> d.previous == Cached(s.base)) && (n == 2 ==> d.previous == Synced(s.base))
      && (n == 0 ==> d.exe == Synced(release))
    case Trial(release) => s.todo == [] && release == s.goal && d.journal.Some? && d.exe == Synced(release)
    case Committing(release) =>
      && n <= 2 && s.todo == CommitProgram(release.version)[2 - n..]
      && d.exe == Synced(release) && release == s.goal
      && (n >= 1 ==> d.journal.Some?) && (n <= 1 ==> d.installed == Some(release.version))
      && (n == 0 ==> d.journal.None? && s.base == release)
    case Recovering =>
      if d.journal.None? then s.todo == []
      else
        && 1 <= n <= 6 && s.todo == RestoreProgram(d.journal.value)[6 - n..]
        && (n == 4 ==> d.staged == Cached(s.base)) && (n == 3 ==> d.staged == Synced(s.base))
        && (n <= 2 ==> d.exe == Synced(s.base))
        && (n == 1 ==> d.installed == Some(s.base.version))
  }

  predicate Inv(s: System) { Safe(s) && Progress(s) }

  predicate Init(s: System) {
    && s.mode == Down && s.todo == [] && s.disk.journal.None? && s.disk.exe == Synced(s.base)
    && (s.disk.installed.Some? ==> s.disk.installed.value == s.base.version)
  }

  lemma InitInv(s: System)
    requires Init(s)
    ensures Inv(s)
  {
  }

  lemma SwitchOp(s: System)
    requires Inv(s) && s.mode.Switching? && s.todo != []
    ensures Inv(Next(s, Operate))
  {
    var program := SwitchProgram(s.mode.release.version, s.base.version);
    var n := |s.todo|;
    assert s.todo[0] == program[5 - n] && s.todo[1..] == program[5 - (n - 1)..];
    assert n == 5 || n == 4 || n == 3 || n == 2 || n == 1;
    SwitchSafe(s, program[5 - n]);
    SwitchProgress(s, program[5 - n]);
  }

  lemma SwitchSafe(s: System, op: Op)
    requires Inv(s) && s.mode.Switching? && s.todo != [] && s.todo[0] == op
    requires op == SwitchProgram(s.mode.release.version, s.base.version)[5 - |s.todo|]
    ensures Safe(Next(s, Operate))
  {
    assert op == DropJournal ==> false;
  }

  lemma SwitchProgress(s: System, op: Op)
    requires Inv(s) && s.mode.Switching? && s.todo != [] && s.todo[0] == op
    requires op == SwitchProgram(s.mode.release.version, s.base.version)[5 - |s.todo|]
    requires s.todo[1..] == SwitchProgram(s.mode.release.version, s.base.version)[5 - (|s.todo| - 1)..]
    ensures Progress(Next(s, Operate))
  {
    assert !op.DropJournal? && (|s.todo| == 3 ==> op == SyncBackup) && (|s.todo| == 4 ==> op == EndBackup);
  }

  lemma CommitOp(s: System)
    requires Inv(s) && s.mode.Committing? && s.todo != []
    ensures Inv(Next(s, Operate))
  {
    var program := CommitProgram(s.mode.release.version);
    assert s.todo[0] == program[2 - |s.todo|] && s.todo[1..] == program[2 - |s.todo| + 1..];
  }

  lemma RecoverOp(s: System)
    requires Inv(s) && s.mode.Recovering? && s.todo != []
    ensures Inv(Next(s, Operate)) && Next(s, Operate).base == s.base
  {
    var program := RestoreProgram(s.disk.journal.value);
    var n := |s.todo|;
    assert s.todo[0] == program[6 - n] && s.todo[1..] == program[6 - (n - 1)..];
    RestoreOps(s.disk.journal.value, n);
    RecoverSafe(s, program[6 - n]);
    RecoverProgress(s, program[6 - n]);
  }

  lemma RecoverSafe(s: System, op: Op)
    requires Safe(s) && s.disk.journal.Some? && s.todo != [] && s.todo[0] == op
    requires !op.BeginBackup? && !op.EndBackup? && !op.SyncBackup? && !op.WriteJournal?
    requires op == Publish ==> s.disk.staged == Synced(s.base)
    requires op.WriteInstalled? ==> op.version == s.base.version
    requires op == DropJournal ==> s.disk.exe == Synced(s.base) && s.disk.installed == Some(s.base.version)
    ensures Safe(Next(s, Operate)) && Next(s, Operate).base == s.base
  {
  }

  lemma RestoreOps(j: Journal, n: nat)
    requires 1 <= n <= 6
    ensures var op := RestoreProgram(j)[6 - n];
      || (n == 6 && op == BeginRestore) || (n == 5 && op == EndRestore) || (n == 4 && op == SyncRestore)
      || (n == 3 && op == Publish) || (n == 2 && op == WriteInstalled(j.previous)) || (n == 1 && op == DropJournal)
  {
  }

  lemma RecoverProgress(s: System, op: Op)
    requires Inv(s) && s.mode.Recovering? && s.todo != [] && s.todo[0] == op
    requires op == RestoreProgram(s.disk.journal.value)[6 - |s.todo|]
    requires s.todo[1..] == RestoreProgram(s.disk.journal.value)[6 - (|s.todo| - 1)..]
    ensures Progress(Next(s, Operate))
  {
    hide RestoreProgram;
    RestoreOps(s.disk.journal.value, |s.todo|);
  }

  /** Every step keeps the invariant, crashes at any point included. */
  lemma StepKeepsInv(s: System, step: Step)
    requires Inv(s) && Can(s, step) && Orderly(s, step)
    ensures Inv(Next(s, step))
  {
    match step
    case Operate =>
      if s.mode.Switching? {
        SwitchOp(s);
      } else if s.mode.Committing? {
        CommitOp(s);
      } else {
        RecoverOp(s);
      }
    case _ =>
  }

  lemma {:induction false} RunKeepsInv(s: System, steps: seq<Step>)
    requires Inv(s) && Runs(s, steps)
    ensures Inv(Run(s, steps))
    decreases steps
  {
    if steps != [] {
      StepKeepsInv(s, steps[0]);
      RunKeepsInv(Next(s, steps[0]), steps[1..]);
    }
  }

  // ----- what the invariant gives -----------------------------------------

  /** At every moment of every run, and after any further crash, the executable is a
      complete, durable binary: that of the last settled state, or the one the
      journal of the update under way names. A journal comes with a complete rollback
      copy, and without one the recorded version is the executable's. */
  lemma ExecutableComplete(s: System, steps: seq<Step>, crashed: Disk)
    requires Inv(s) && Runs(s, steps) && CrashOf(Run(s, steps).disk, crashed)
    ensures var t := Run(s, steps);
      && crashed.exe == t.disk.exe
      && (crashed.exe == Synced(t.base) || (crashed.exe == Synced(t.goal) && crashed.journal.Some?))
      && (crashed.journal.Some? ==> crashed.previous == Synced(t.base))
      && (crashed.journal.None? && crashed.installed.Some? ==> crashed.installed == CurrentVersion(crashed))
  {
    RunKeepsInv(s, steps);
  }

  // Only crashes, boots, operations and abandoned attempts: recovery, interrupted
  // any number of times.
  predicate RecoveryOnly(steps: seq<Step>) {
    forall i :: 0 <= i < |steps| ==>
      steps[i].Crash? || steps[i].Boot? || steps[i].Operate? || steps[i].Abandon? || steps[i].Recovered?
  }

  lemma {:induction false} RecoveryKeepsBase(s: System, steps: seq<Step>)
    requires Inv(s) && Runs(s, steps) && RecoveryOnly(steps)
    requires s.mode.Down? || s.mode.Recovering? || s.mode.Idle?
    ensures var t := Run(s, steps); t.base == s.base && (t.mode.Down? || t.mode.Recovering? || t.mode.Idle?)
    decreases steps
  {
    hide Inv;
    if steps != [] {
      RecoveryStep(s, steps[0]);
      StepKeepsInv(s, steps[0]);
      assert forall i :: 0 <= i < |steps[1..]| ==> steps[1..][i] == steps[i + 1];
      RecoveryKeepsBase(Next(s, steps[0]), steps[1..]);
    }
  }

  lemma RecoveryStep(s: System, step: Step)
    requires Inv(s) && Can(s, step)
    requires step.Crash? || step.Boot? || step.Operate? || step.Abandon? || step.Recovered?
    requires s.mode.Down? || s.mode.Recovering? || s.mode.Idle?
    ensures var t := Next(s, step); t.base == s.base && (t.mode.Down? || t.mode.Recovering? || t.mode.Idle?)
  {
    if step.Operate? { RecoverOp(s); }
  }

  lemma {:induction false} FinishRecovery(s: System) returns (steps: seq<Step>)
    requires Inv(s) && s.mode.Recovering?
    ensures |steps| == |s.todo| && Runs(s, steps) && Inv(Run(s, steps))
    ensures Run(s, steps).mode.Recovering? && Run(s, steps).todo == [] && Run(s, steps).base == s.base
    ensures Run(s, steps).disk.journal.None?
    ensures s.disk.journal.Some? ==> Run(s, steps).disk.installed == Some(s.base.version)
    decreases |s.todo|
  {
    if s.todo == [] {
      steps := [];
    } else {
      RecoverOp(s);
      var rest := FinishRecovery(Next(s, Operate));
      steps := [Operate] + rest;
      assert steps[1..] == rest;
    }
  }

  /** From any crash, however often recovery was itself cut short, letting recover
      finish ends without a journal, with the last settled binary in place and its
      version recorded if any is. */
  lemma RecoveryCompletes(s: System, cut: seq<Step>) returns (steps: seq<Step>)
    requires Inv(s) && s.mode.Down?
    requires Runs(s, cut) && RecoveryOnly(cut) && Run(s, cut).mode.Down?
    ensures Runs(Run(s, cut), [Boot] + steps)
    ensures var m, t := Run(s, cut), Run(Run(s, cut), [Boot] + steps);
      && t.disk.journal.None? && t.disk.exe == Synced(s.base)
      && (m.disk.journal.Some? ==> t.disk.installed == Some(s.base.version))
      && (t.disk.installed.Some? ==> t.disk.installed.value == s.base.version)
  {
    RunKeepsInv(s, cut);
    RecoveryKeepsBase(s, cut);
    var m := Run(s, cut);
    StepKeepsInv(m, Boot);
    steps := FinishRecovery(Next(m, Boot));
    BootThen(m, steps);
  }

  lemma BootThen(m: System, steps: seq<Step>)
    requires m.mode.Down? && Runs(Next(m, Boot), steps)
    ensures Runs(m, [Boot] + steps) && Run(m, [Boot] + steps) == Run(Next(m, Boot), steps)
  {
    assert ([Boot] + steps)[1..] == steps;
  }

  // The version a crash and a completed recovery would leave in place.
  function Settled(s: System): Version { s.base.version }

  lemma SettledRises(s: System, step: Step)
    requires Inv(s) && Can(s, step) && Orderly(s, step)
    ensures AtMost(Settled(s), Settled(Next(s, step)))
  {
    if step.Operate? {
      if s.mode.Switching? {
        var program := SwitchProgram(s.mode.release.version, s.base.version);
        assert s.todo[0] == program[5 - |s.todo|];
      } else if s.mode.Committing? {
        var program := CommitProgram(s.mode.release.version);
        assert s.todo[0] == program[2 - |s.todo|];
      } else {
        RecoverOp(s);
      }
    }
  }

  lemma {:induction false} SettledNeverFalls(s: System, steps: seq<Step>)
    requires Inv(s) && Runs(s, steps)
    ensures AtMost(Settled(s), Settled(Run(s, steps)))
    decreases steps
  {
    if steps != [] {
      SettledRises(s, steps[0]);
      StepKeepsInv(s, steps[0]);
      SettledNeverFalls(Next(s, steps[0]), steps[1..]);
    }
  }

  /** Between transactions the recorded version never goes down over a whole run,
      whatever crashed, failed or was rolled back in between. */
  lemma RecordedVersionNeverFalls(s: System, steps: seq<Step>)
    requires Inv(s) && Runs(s, steps)
    requires s.disk.journal.None? && s.disk.installed.Some?
    requires Run(s, steps).disk.journal.None? && Run(s, steps).disk.installed.Some?
    ensures AtMost(s.disk.installed.value, Run(s, steps).disk.installed.value)
  {
    RunKeepsInv(s, steps);
    SettledNeverFalls(s, steps);
  }

  // ----- the condition cannot be dropped ----------------------------------

  // As Runs, but updates may begin over a journal that an abandoned recovery left.
  predicate FreeRuns(s: System, steps: seq<Step>)
    decreases steps
  {
    steps == [] || (Can(s, steps[0]) && FreeRuns(Next(s, steps[0]), steps[1..]))
  }

  function FreeRun(s: System, steps: seq<Step>): System
    requires FreeRuns(s, steps)
    decreases steps
  {
    if steps == [] then s else FreeRun(Next(s, steps[0]), steps[1..])
  }

  // Begin, tear the rollback copy, lose power, and let recovery publish it.
  function TornRestore(s: System, release: Binary): seq<Step>
    requires Can(s, Begin(release))
  {
    [Begin(release), Operate, Crash(s.disk.(previous := Torn)), Boot, Operate, Operate, Operate, Operate]
  }

  /** In an idle state of a good run, beginning an update is safe against every
      crash exactly when no journal is left: otherwise one badly timed power loss and
      the next recovery leave a torn executable. The source does not check this. */
  lemma BeginSafeIff(s: System, release: Binary)
    requires Inv(s) && Can(s, Begin(release))
    ensures s.disk.journal.None? ==> Inv(Next(s, Begin(release)))
    ensures s.disk.journal.Some? ==>
      FreeRuns(s, TornRestore(s, release)) && FreeRun(s, TornRestore(s, release)).disk.exe == Torn
  {
    if s.disk.journal.Some? {
      TornRestoreRuns(s, release);
    }
  }

  lemma TornRestoreRuns(s: System, release: Binary)
    requires Inv(s) && Can(s, Begin(release)) && s.disk.journal.Some?
    ensures FreeRuns(s, TornRestore(s, release))
    ensures FreeRun(s, TornRestore(s, release)).disk.exe == Torn
  {
    var steps := TornRestore(s, release);
    var s1 := Next(s, Begin(release));
    var s2 := Next(s1, Operate);
    var s3 := Next(s2, Crash(s.disk.(previous := Torn)));
    var s4 := Next(s3, Boot);
    RestoreTorn(s4);
    assert steps[4..] == [Operate, Operate, Operate, Operate];
    assert steps[3..][1..] == steps[4..] && steps[2..][1..] == steps[3..] && steps[1..][1..] == steps[2..];
    assert FreeRuns(s3, steps[3..]) && FreeRun(s3, steps[3..]) == FreeRun(s4, steps[4..]);
    assert FreeRuns(s2, steps[2..]) && FreeRun(s2, steps[2..]) == FreeRun(s3, steps[3..]);
    assert FreeRuns(s1, steps[1..]) && FreeRun(s1, steps[1..]) == FreeRun(s2, steps[2..]);
  }

  lemma RestoreTorn(s: System)
    requires s.mode.Recovering? && s.disk.journal.Some? && s.disk.previous == Torn
    requires s.todo == RestoreProgram(s.disk.journal.value)
    ensures FreeRuns(s, [Operate, Operate, Operate, Operate])
    ensures FreeRun(s, [Operate, Operate, Operate, Operate]).disk.exe == Torn
  {
    var s1 := Next(s, Operate);
    var s2 := Next(s1, Operate);
    var s3 := Next(s2, Operate);
    var s4 := Next(s3, Operate);
    assert FreeRuns(s3, [Operate]) && FreeRun(s3, [Operate]) == s4;
    assert [Operate, Operate][1..] == [Operate];
    assert FreeRuns(s2, [Operate, Operate]) && FreeRun(s2, [Operate, Operate]) == s4;
    assert [Operate, Operate, Operate][1..] == [Operate, Operate];
    assert FreeRuns(s1, [Operate, Operate, Operate]) && FreeRun(s1, [Operate, Operate, Operate]) == s4;
    assert [Operate, Operate, Operate, Operate][1..] == [Operate, Operate, Operate];
  }

  // ----- the unsafe state is reached --------------------------------------

  // An update whose trial never starts, and whose recovery is abandoned.
  function LeaveJournal(release: Binary): seq<Step> {
    [Boot, Recovered, Download(Synced(release)), Begin(release), Operate, Operate, Operate, Operate,
     Fail, Abandon, Download(Synced(release))]
  }

  lemma RunFrom(s: System, steps: seq<Step>, i: nat)
    requires i < |steps| && Can(s, steps[i]) && Orderly(s, steps[i])
    ensures Runs(s, steps[i..]) <==> Runs(Next(s, steps[i]), steps[i + 1..])
    ensures Runs(s, steps[i..]) ==> Run(s, steps[i..]) == Run(Next(s, steps[i]), steps[i + 1..])
  {
    hide Next, Can, Orderly;
    assert steps[i..][0] == steps[i] && steps[i..][1..] == steps[i + 1..];
  }

  lemma NoSteps(s: System)
    ensures Runs(s, []) && Run(s, []) == s
  {
  }

  // Booted, with the release downloaded.
  function Ready(s: System, release: Binary): System {
    s.(mode := Idle, todo := [], disk := s.disk.(staged := Synced(release)))
  }

  // The journal written, the backup complete, the switch given up and recovery too.
  function Left(s: System, release: Binary): System {
    s.(mode := Idle, todo := [], goal := release,
       disk := s.disk.(staged := Synced(release), previous := Synced(s.base),
                       journal := Some(Journal(release.version, s.base.version))))
  }

  lemma FirstHalf(s: System, release: Binary)
    requires Init(s)
    ensures var steps := LeaveJournal(release);
      Runs(s, steps) <==> Runs(Ready(s, release), steps[3..])
    ensures var steps := LeaveJournal(release);
      Runs(s, steps) ==> Run(s, steps) == Run(Ready(s, release), steps[3..])
  {
    hide Runs, Run;
    var steps := LeaveJournal(release);
    var s1 := Next(s, Boot);
    var s2 := Next(s1, Recovered);
    assert Next(s2, steps[2]) == Ready(s, release);
    assert steps[0..] == steps;
    RunFrom(s, steps, 0);
    RunFrom(s1, steps, 1);
    RunFrom(s2, steps, 2);
  }

  // The backup synced and the journal written; the rename is next.
  function Journalled(s: System, release: Binary): System {
    s.(mode := Switching(release), goal := release, todo := [Publish],
       disk := s.disk.(staged := Synced(release), previous := Synced(s.base),
                       journal := Some(Journal(release.version, s.base.version))))
  }

  // In the middle of the switch.
  function Midway(s: System, release: Binary, previous: File, todo: seq<Op>): System {
    Ready(s, release).(mode := Switching(release), goal := release, todo := todo,
                       disk := Ready(s, release).disk.(previous := previous))
  }

  predicate Leads(s: System, step: Step, t: System) { Can(s, step) && Orderly(s, step) && Next(s, step) == t }

  lemma BackupSteps(s: System, release: Binary)
    requires Init(s) && Below(s.base.version, release.version)
    ensures var j := WriteJournal(Journal(release.version, s.base.version));
      && Leads(Ready(s, release), Begin(release),
               Midway(s, release, s.disk.previous, [BeginBackup, EndBackup, SyncBackup, j, Publish]))
      && Leads(Midway(s, release, s.disk.previous, [BeginBackup, EndBackup, SyncBackup, j, Publish]), Operate,
               Midway(s, release, Torn, [EndBackup, SyncBackup, j, Publish]))
      && Leads(Midway(s, release, Torn, [EndBackup, SyncBackup, j, Publish]), Operate,
               Midway(s, release, Cached(s.base), [SyncBackup, j, Publish]))
      && Leads(Midway(s, release, Cached(s.base), [SyncBackup, j, Publish]), Operate,
               Midway(s, release, Synced(s.base), [j, Publish]))
      && Leads(Midway(s, release, Synced(s.base), [j, Publish]), Operate, Journalled(s, release))
  {
    var j := WriteJournal(Journal(release.version, s.base.version));
    assert [BeginBackup, EndBackup, SyncBackup, j, Publish][1..] == [EndBackup, SyncBackup, j, Publish];
    assert [EndBackup, SyncBackup, j, Publish][1..] == [SyncBackup, j, Publish];
    assert [SyncBackup, j, Publish][1..] == [j, Publish];
    assert [j, Publish][1..] == [Publish];
  }

  lemma LeadsFrom(s: System, steps: seq<Step>, i: nat, t: System)
    requires i < |steps| && Leads(s, steps[i], t)
    ensures Runs(s, steps[i..]) <==> Runs(t, steps[i + 1..])
    ensures Runs(s, steps[i..]) ==> Run(s, steps[i..]) == Run(t, steps[i + 1..])
  {
    hide Next, Can, Orderly, Runs, Run;
    RunFrom(s, steps, i);
  }

  lemma SwitchBegun(s: System, release: Binary)
    requires Init(s) && Below(s.base.version, release.version)
    ensures var steps := LeaveJournal(release);
      Runs(Ready(s, release), steps[3..]) <==> Runs(Journalled(s, release), steps[8..])
    ensures var steps := LeaveJournal(release);
      Runs(Ready(s, release), steps[3..]) ==>
        Run(Ready(s, release), steps[3..]) == Run(Journalled(s, release), steps[8..])
  {
    hide Runs, Run, Leads, Midway, Ready, Journalled, Init, Below;
    var steps := LeaveJournal(release);
    var j := WriteJournal(Journal(release.version, s.base.version));
    BackupSteps(s, release);
    var a := Midway(s, release, s.disk.previous, [BeginBackup, EndBackup, SyncBackup, j, Publish]);
    var b := Midway(s, release, Torn, [EndBackup, SyncBackup, j, Publish]);
    var c := Midway(s, release, Cached(s.base), [SyncBackup, j, Publish]);
    var d := Midway(s, release, Synced(s.base), [j, Publish]);
    LeadsFrom(Ready(s, release), steps, 3, a);
    LeadsFrom(a, steps, 4, b);
    LeadsFrom(b, steps, 5, c);
    LeadsFrom(c, steps, 6, d);
    LeadsFrom(d, steps, 7, Journalled(s, release));
  }

  lemma RecoveryAbandoned(s: System, release: Binary)
    requires Init(s)
    ensures var steps := LeaveJournal(release);
      Runs(Journalled(s, release), steps[8..]) && Run(Journalled(s, release), steps[8..]) == Left(s, release)
  {
    hide Runs, Run, RestoreProgram;
    var steps := LeaveJournal(release);
    var s8 := Journalled(s, release);
    var s9 := s8.(mode := Recovering, todo := RecoverProgram(s8.disk));
    var s10 := s9.(mode := Idle, todo := []);
    assert Next(s8, Fail) == s9 && Next(s9, Abandon) == s10 && Next(s10, steps[10]) == Left(s, release);
    assert steps[11..] == [];
    RunFrom(s8, steps, 8);
    RunFrom(s9, steps, 9);
    RunFrom(s10, steps, 10);
    NoSteps(Left(s, release));
  }

  /** From any installed collector and any newer release a good run leads to an idle
      state with the journal of an abandoned recovery, from which the next update may
      begin. */
  lemma JournalLeftBehind(s: System, release: Binary)
    requires Init(s) && Below(s.base.version, release.version)
    ensures Runs(s, LeaveJournal(release))
    ensures var t := Run(s, LeaveJournal(release));
      Inv(t) && t.disk.journal.Some? && Can(t, Begin(release))
  {
    hide Runs, Run;
    FirstHalf(s, release);
    SwitchBegun(s, release);
    RecoveryAbandoned(s, release);
  }

  lemma {:induction false} GoodIsFree(s: System, steps: seq<Step>, more: seq<Step>)
    requires Runs(s, steps) && FreeRuns(Run(s, steps), more)
    ensures FreeRuns(s, steps + more) && FreeRun(s, steps + more) == FreeRun(Run(s, steps), more)
    decreases |steps|
  {
    hide Next, Can, Orderly;
    if steps == [] {
      assert steps + more == more;
    } else {
      assert (steps + more)[0] == steps[0] && (steps + more)[1..] == steps[1..] + more;
      GoodIsFree(Next(s, steps[0]), steps[1..], more);
    }
  }

  /** So every installed collector can end, in one run, with a torn executable. */
  lemma TornFromBoot(s: System, release: Binary)
    requires Init(s) && Below(s.base.version, release.version)
    ensures exists steps: seq<Step> :: FreeRuns(s, steps) && FreeRun(s, steps).disk.exe == Torn
  {
    hide Runs, Run, FreeRuns, FreeRun, Inv, LeaveJournal, TornRestore;
    JournalLeftBehind(s, release);
    var t := Run(s, LeaveJournal(release));
    TornRestoreRuns(t, release);
    GoodIsFree(s, LeaveJournal(release), TornRestore(t, release));
  }
}
