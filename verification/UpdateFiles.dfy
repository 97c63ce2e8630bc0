/** The files of the collector's self-update and the primitive operations on them.
    A copied file is only in the cache until it is synced: a power loss may tear it.
    Renames and JSON publications are atomic. */
module UpdateFiles {
  import opened Common

  datatype Version = Version(major: nat, minor: nat, patch: nat)

  // The order of version_tuple.
  predicate Below(a: Version, b: Version) {
    || a.major < b.major
    || (a.major == b.major && a.minor < b.minor)
    || (a.major == b.major && a.minor == b.minor && a.patch < b.patch)
  }

  predicate AtMost(a: Version, b: Version) { a == b || Below(a, b) }

  // An executable: what it answers to a health request, and its exact content.
  datatype Binary = Binary(version: Version, content: nat)

  datatype File = Missing | Torn | Cached(bin: Binary) | Synced(bin: Binary)

  datatype Journal = Journal(target: Version, previous: Version)

  datatype Disk = Disk(exe: File, staged: File, previous: File, journal: Option<Journal>, installed: Option<Version>)

  datatype Op =
    | BeginBackup | EndBackup | SyncBackup
    | WriteJournal(journal: Journal)
    | Publish
    | BeginRestore | EndRestore | SyncRestore
    | WriteInstalled(version: Version)
    | DropJournal

  predicate Holds(f: File, b: Binary) { f == Cached(b) || f == Synced(b) }

  function Copied(f: File): File {
    match f
    case Synced(b) => Cached(b)
    case _ => f
  }

  function Flushed(f: File): File {
    match f
    case Cached(b) => Synced(b)
    case _ => f
  }

  function Perform(d: Disk, op: Op): Disk {
    match op
    case BeginBackup => d.(previous := Torn)
    case EndBackup => d.(previous := Copied(d.exe))
    case SyncBackup => d.(previous := Flushed(d.previous))
    case WriteJournal(j) => d.(journal := Some(j))
    case Publish => d.(exe := d.staged, staged := Missing)
    case BeginRestore => d.(staged := Torn)
    case EndRestore => d.(staged := Copied(d.previous))
    case SyncRestore => d.(staged := Flushed(d.staged))
    case WriteInstalled(v) => d.(installed := Some(v))
    case DropJournal => d.(journal := None)
  }

  function SwitchProgram(target: Version, previous: Version): seq<Op> {
    [BeginBackup, EndBackup, SyncBackup, WriteJournal(Journal(target, previous)), Publish]
  }

  function CommitProgram(v: Version): seq<Op> { [WriteInstalled(v), DropJournal] }

  function RestoreProgram(j: Journal): seq<Op> {
    [BeginRestore, EndRestore, SyncRestore, Publish, WriteInstalled(j.previous), DropJournal]
  }

  function RecoverProgram(d: Disk): seq<Op> {
    if d.journal.Some? then RestoreProgram(d.journal.value) else []
  }

  // Every state a program passes through, the last one last.
  function States(d: Disk, program: seq<Op>): seq<Disk>
    decreases program
  {
    if program == [] then [] else [Perform(d, program[0])] + States(Perform(d, program[0]), program[1..])
  }

  function After(d: Disk, program: seq<Op>): Disk
    decreases program
  {
    if program == [] then d else After(Perform(d, program[0]), program[1..])
  }

  // What power loss or the death of the process may do to one file.
  predicate MayBecome(f: File, f': File) {
    f' == f || (f.Cached? && (f' == Torn || f' == Synced(f.bin)))
  }

  predicate CrashOf(d: Disk, d': Disk) {
    && MayBecome(d.exe, d'.exe) && MayBecome(d.staged, d'.staged) && MayBecome(d.previous, d'.previous)
    && d'.journal == d.journal && d'.installed == d.installed
  }

  datatype Recovery = Nothing | Restored(journal: Journal) | NoRollback

  /** The transaction object. The ghost trace is every state the disk went through. */
  class UpdateTransaction {
    var exe: File
    var staged: File
    var previous: File
    var journal: Option<Journal>
    var installed: Option<Version>
    ghost var trace: seq<Disk>

    ghost function Now(): Disk
      reads this
    {
      Disk(exe, staged, previous, journal, installed)
    }

    method CopyToPrevious()
      modifies this
      ensures Now() == After(old(Now()), [BeginBackup, EndBackup])
      ensures trace == old(trace) + States(old(Now()), [BeginBackup, EndBackup])
    {
      previous := Torn;
      trace := trace + [Now()];
      previous := Copied(exe);
      trace := trace + [Now()];
      Two(old(Now()), BeginBackup, EndBackup);
    }

    method CopyToStaged()
      modifies this
      ensures Now() == After(old(Now()), [BeginRestore, EndRestore])
      ensures trace == old(trace) + States(old(Now()), [BeginRestore, EndRestore])
    {
      staged := Torn;
      trace := trace + [Now()];
      staged := Copied(previous);
      trace := trace + [Now()];
      Two(old(Now()), BeginRestore, EndRestore);
    }

    method ReplaceExe()
      modifies this
      ensures Now() == Perform(old(Now()), Publish)
      ensures trace == old(trace) + [Now()]
    {
      exe, staged := staged, Missing;
      trace := trace + [Now()];
    }

    /** Refuses anything but the exact released binary; otherwise runs the program,
        through exactly its states. */
    method Switch(release: Binary, previousVersion: Version) returns (switched: bool)
      modifies this
      ensures switched <==> Holds(old(staged), release)
      ensures !switched ==> Now() == old(Now()) && trace == old(trace)
      ensures switched ==> Now() == After(old(Now()), SwitchProgram(release.version, previousVersion))
      ensures switched ==> trace == old(trace) + States(old(Now()), SwitchProgram(release.version, previousVersion))
    {
      switched := (staged.Cached? || staged.Synced?) && staged.bin == release;
      if switched {
        ghost var start := Now();
        CopyToPrevious();
        previous := Flushed(previous);
        trace := trace + [Now()];
        journal := Some(Journal(release.version, previousVersion));
        trace := trace + [Now()];
        ReplaceExe();
        SwitchUnrolls(start, release.version, previousVersion);
      }
    }

    method Commit(version: Version)
      modifies this
      ensures Now() == After(old(Now()), CommitProgram(version))
      ensures trace == old(trace) + States(old(Now()), CommitProgram(version))
    {
      installed := Some(version);
      trace := trace + [Now()];
      journal := None;
      trace := trace + [Now()];
      Two(old(Now()), WriteInstalled(version), DropJournal);
    }

    method Recover() returns (r: Recovery)
      modifies this
      ensures r.Nothing? <==> old(journal).None?
      ensures r.NoRollback? <==> old(journal).Some? && old(previous).Missing?
      ensures r.Restored? ==> r.journal == old(journal).value
      ensures !r.Restored? ==> Now() == old(Now()) && trace == old(trace)
      ensures r.Restored? ==> Now() == After(old(Now()), RecoverProgram(old(Now())))
      ensures r.Restored? ==> trace == old(trace) + States(old(Now()), RecoverProgram(old(Now())))
    {
      if journal.None? {
        return Nothing;
      }
      var transaction := journal.value;
      if previous.Missing? {
        return NoRollback;
      }
      ghost var start := Now();
      CopyToStaged();
      staged := Flushed(staged);
      trace := trace + [Now()];
      ReplaceExe();
      installed := Some(transaction.previous);
      trace := trace + [Now()];
      journal := None;
      trace := trace + [Now()];
      RestoreUnrolls(start, transaction);
      r := Restored(transaction);
    }
  }

  lemma {:induction false} StatesJoin(d: Disk, a: seq<Op>, b: seq<Op>)
    ensures States(d, a + b) == States(d, a) + States(After(d, a), b)
    ensures After(d, a + b) == After(After(d, a), b)
    decreases a
  {
    if a == [] {
      assert a + b == b;
    } else {
      assert (a + b)[0] == a[0] && (a + b)[1..] == a[1..] + b;
      StatesJoin(Perform(d, a[0]), a[1..], b);
    }
  }

  lemma One(d: Disk, op: Op)
    ensures States(d, [op]) == [Perform(d, op)] && After(d, [op]) == Perform(d, op)
  {
  }

  lemma Two(d: Disk, a: Op, b: Op)
    ensures States(d, [a, b]) == [Perform(d, a), Perform(Perform(d, a), b)]
    ensures After(d, [a, b]) == Perform(Perform(d, a), b)
  {
    assert [a, b][1..] == [b];
    One(Perform(d, a), b);
  }

  lemma SwitchUnrolls(d: Disk, target: Version, previous: Version)
    ensures var d2 := After(d, [BeginBackup, EndBackup]);
      var d3 := Perform(d2, SyncBackup);
      var d4 := Perform(d3, WriteJournal(Journal(target, previous)));
      && After(d, SwitchProgram(target, previous)) == Perform(d4, Publish)
      && States(d, SwitchProgram(target, previous))
           == States(d, [BeginBackup, EndBackup]) + [d3] + [d4] + [Perform(d4, Publish)]
  {
    hide Perform;
    var write := WriteJournal(Journal(target, previous));
    var d2 := After(d, [BeginBackup, EndBackup]);
    assert SwitchProgram(target, previous) == [BeginBackup, EndBackup] + [SyncBackup] + [write] + [Publish];
    StatesJoin(d, [BeginBackup, EndBackup], [SyncBackup]);
    One(d2, SyncBackup);
    StatesJoin(d, [BeginBackup, EndBackup] + [SyncBackup], [write]);
    One(Perform(d2, SyncBackup), write);
    StatesJoin(d, [BeginBackup, EndBackup] + [SyncBackup] + [write], [Publish]);
    One(Perform(Perform(d2, SyncBackup), write), Publish);
  }

  lemma RestoreUnrolls(d: Disk, j: Journal)
    ensures var d2 := After(d, [BeginRestore, EndRestore]);
      var d3 := Perform(d2, SyncRestore);
      var d4 := Perform(d3, Publish);
      var d5 := Perform(d4, WriteInstalled(j.previous));
      && After(d, RestoreProgram(j)) == Perform(d5, DropJournal)
      && States(d, RestoreProgram(j))
           == States(d, [BeginRestore, EndRestore]) + [d3] + [d4] + [d5] + [Perform(d5, DropJournal)]
  {
    hide Perform;
    var first := [BeginRestore, EndRestore];
    var write := WriteInstalled(j.previous);
    var d2 := After(d, first);
    assert RestoreProgram(j) == first + [SyncRestore] + [Publish] + [write] + [DropJournal];
    StatesJoin(d, first, [SyncRestore]);
    One(d2, SyncRestore);
    StatesJoin(d, first + [SyncRestore], [Publish]);
    var d3 := Perform(d2, SyncRestore);
    One(d3, Publish);
    StatesJoin(d, first + [SyncRestore] + [Publish], [write]);
    var d4 := Perform(d3, Publish);
    One(d4, write);
    StatesJoin(d, first + [SyncRestore] + [Publish] + [write], [DropJournal]);
    One(Perform(d4, write), DropJournal);
  }

  // A version as one number, for parts below a bound.
  function Numeral(v: Version, bound: nat): nat { (v.major * bound + v.minor) * bound + v.patch }

  /** Versions are ordered as numbers whose digits are their three parts. */
  lemma BelowIsNumeric(a: Version, b: Version, bound: nat)
    requires a.minor < bound && a.patch < bound && b.minor < bound && b.patch < bound
    ensures Below(a, b) <==> Numeral(a, bound) < Numeral(b, bound)
  {
    DigitsOrder(a.major, a.minor, b.major, b.minor, bound);
    DigitsOrder(a.major * bound + a.minor, a.patch, b.major * bound + b.minor, b.patch, bound);
  }

  lemma DigitsOrder(x: nat, i: nat, y: nat, j: nat, bound: nat)
    requires i < bound && j < bound
    ensures x * bound + i < y * bound + j <==> x < y || (x == y && i < j)
    ensures x * bound + i == y * bound + j <==> x == y && i == j
  {
    if x < y {
      assert (x + 1) * bound <= y * bound;
    } else if y < x {
      assert (y + 1) * bound <= x * bound;
    }
  }
}
