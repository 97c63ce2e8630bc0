/** Moving a collector's legacy files into its data directory: the database, then the
    installation identity, then the settings, each through a temporary file and an
    atomic rename, with a power failure possible between any two file operations. */
module Migration {
  import opened Common

  datatype Kind = Database | Identity | Settings

  // The three files of a directory; strays: temporary files left behind.
  datatype Dir = Dir(database: Option<string>, identity: Option<string>, settings: Option<string>, strays: nat)

  datatype Outcome = Finished(migrated: seq<Kind>) | Refused | PowerLost

  function File(d: Dir, kind: Kind): Option<string> {
    match kind
    case Database => d.database
    case Identity => d.identity
    case Settings => d.settings
  }

  function Put(d: Dir, kind: Kind, content: string): Dir {
    match kind
    case Database => d.(database := Some(content))
    case Identity => d.(identity := Some(content))
    case Settings => d.(settings := Some(content))
  }

  // ----- what is checked before anything is written -----------------------

  predicate Blank(c: char) { c == ' ' || '\t' <= c <= '\r' || 28 as char <= c <= 31 as char }

  function TrimLeft(s: string): string {
    if s != [] && Blank(s[0]) then TrimLeft(s[1..]) else s
  }

  function TrimRight(s: string): string {
    if s != [] && Blank(s[|s| - 1]) then TrimRight(s[..|s| - 1]) else s
  }

  function Strip(s: string): string { TrimRight(TrimLeft(s)) }

  predicate ValidIdentity(s: string) {
    |s| == 32 && forall i :: 0 <= i < 32 ==> '0' <= s[i] <= '9' || 'a' <= s[i] <= 'f'
  }

  predicate Conflicts(legacy: Dir, d: Dir) {
    if legacy.identity.Some? then
      !ValidIdentity(Strip(legacy.identity.value))
      || (d.identity.Some? && Strip(d.identity.value) != Strip(legacy.identity.value))
    else legacy.settings.Some? && d.identity.Some?
  }

  // ----- one attempt ------------------------------------------------------

  // left: how many more file operations complete before the power fails.
  datatype Progress = Progress(dir: Dir, left: nat, dead: bool)

  // Write the temporary file, then rename it; a file that exists is never touched.
  function Copy(p: Progress, kind: Kind, source: Option<string>): Progress {
    if p.dead || source.None? || File(p.dir, kind).Some? then p
    else if p.left == 0 then p.(dead := true)
    else if p.left == 1 then Progress(p.dir.(strays := p.dir.strays + 1), 0, true)
    else Progress(Put(p.dir, kind, source.value), p.left - 2, false)
  }

  function CopyAll(d: Dir, legacy: Dir, power: nat): Progress {
    Copy(Copy(Copy(Progress(d, power, false), Database, legacy.database), Identity, legacy.identity),
         Settings, legacy.settings)
  }

  // same: the legacy directory is the data directory itself.
  function Attempt(d: Dir, legacy: Dir, same: bool, power: nat): Dir {
    if same || d.settings.Some? || Conflicts(legacy, d) then d else CopyAll(d, legacy, power).dir
  }

  class DataDirectory {
    var database: Option<string>
    var identity: Option<string>
    var settings: Option<string>
    var strays: nat

    function Now(): Dir
      reads this
    {
      Dir(database, identity, settings, strays)
    }

    method CopyFile(kind: Kind, source: Option<string>, power: nat) returns (left: nat, dead: bool, copied: bool)
      modifies this
      ensures Progress(Now(), left, dead) == Copy(Progress(old(Now()), power, false), kind, source)
      ensures copied <==> !dead && source.Some? && File(old(Now()), kind).None?
    {
      left, dead, copied := power, false, false;
      if source.None? || File(Now(), kind).Some? {
        return;
      }
      if left == 0 {
        return left, true, false;
      }
      strays := strays + 1;
      left := left - 1;
      if left == 0 {
        return left, true, false;
      }
      strays := strays - 1;
      match kind {
        case Database => database := source;
        case Identity => identity := source;
        case Settings => settings := source;
      }
      left := left - 1;
      copied := true;
    }

    /** The database first, then the identity, then the settings. */
    method MigrateLegacy(legacy: Dir, same: bool, power: nat) returns (out: Outcome)
      modifies this
      ensures Now() == Attempt(old(Now()), legacy, same, power)
      ensures out.Refused? <==> !same && old(settings).None? && Conflicts(legacy, old(Now()))
      ensures out.PowerLost? <==>
        !same && old(settings).None? && !Conflicts(legacy, old(Now())) && CopyAll(old(Now()), legacy, power).dead
      ensures out.Finished? ==>
        forall k :: k in out.migrated <==> File(old(Now()), k).None? && File(Now(), k).Some?
    {
      if same || settings.Some? {
        return Finished([]);
      }
      if Conflicts(legacy, Now()) {
        return Refused;
      }
      var migrated: seq<Kind> := [];
      var left, dead, copied := CopyFile(Database, legacy.database, power);
      if dead {
        return PowerLost;
      }
      if copied {
        migrated := migrated + [Database];
      }
      left, dead, copied := CopyFile(Identity, legacy.identity, left);
      if dead {
        return PowerLost;
      }
      if copied {
        migrated := migrated + [Identity];
      }
      left, dead, copied := CopyFile(Settings, legacy.settings, left);
      if dead {
        return PowerLost;
      }
      if copied {
        migrated := migrated + [Settings];
      }
      out := Finished(migrated);
    }
  }

  // ----- guarantees -------------------------------------------------------

  /** No attempt, however cut short, changes a file that exists; a file that appears is
      the legacy one. */
  lemma NeverOverwrites(d: Dir, legacy: Dir, same: bool, power: nat, kind: Kind)
    ensures var u := Attempt(d, legacy, same, power);
      && (File(d, kind).Some? ==> File(u, kind) == File(d, kind))
      && (File(d, kind).None? && File(u, kind).Some? ==> File(u, kind) == File(legacy, kind))
  {
  }

  // One start of the program per entry, each with power for so many file operations.
  function Starts(d: Dir, legacy: Dir, powers: seq<nat>): Dir
    decreases |powers|
  {
    if powers == [] then d else Starts(Attempt(d, legacy, false, powers[0]), legacy, powers[1..])
  }

  /** A conflicting or invalid identity publishes nothing and leaves nothing behind,
      however often the program is started. */
  lemma {:induction false} ConflictPublishesNothing(d: Dir, legacy: Dir, powers: seq<nat>)
    requires Conflicts(legacy, d)
    ensures Starts(d, legacy, powers) == d
    decreases |powers|
  {
    hide Conflicts;
    if powers != [] {
      ConflictPublishesNothing(d, legacy, powers[1..]);
    }
  }

  // Migrated settings come with the legacy identity and a database.
  predicate SettingsLast(d: Dir, legacy: Dir) {
    d.settings.Some? ==>
      && d.settings == legacy.settings
      && (legacy.identity.Some? ==> d.identity.Some? && Strip(d.identity.value) == Strip(legacy.identity.value))
      && (legacy.identity.None? ==> d.identity.None?)
      && (legacy.database.Some? ==> d.database.Some?)
  }

  lemma AttemptOrdered(d: Dir, legacy: Dir, power: nat)
    requires SettingsLast(d, legacy)
    ensures SettingsLast(Attempt(d, legacy, false, power), legacy)
  {
  }

  /** After any number of starts cut short anywhere, migrated settings are present only
      together with the legacy machine's identity and a database. */
  lemma {:induction false} SettingsNeverAlone(d: Dir, legacy: Dir, powers: seq<nat>)
    requires SettingsLast(d, legacy)
    ensures SettingsLast(Starts(d, legacy, powers), legacy)
    decreases |powers|
  {
    hide SettingsLast, Attempt;
    if powers != [] {
      AttemptOrdered(d, legacy, powers[0]);
      SettingsNeverAlone(Attempt(d, legacy, false, powers[0]), legacy, powers[1..]);
    }
  }

  // Enough power for every file operation there is.
  const PLENTY: nat := 6

  function Published(d: Dir): Dir { d.(strays := 0) }

  lemma PlentyFinishes(d: Dir, legacy: Dir, power: nat)
    requires power >= PLENTY
    ensures !CopyAll(d, legacy, power).dead
    ensures Attempt(d, legacy, false, power) == Attempt(d, legacy, false, PLENTY)
  {
  }

  lemma InterruptionHarmless(d: Dir, legacy: Dir, power: nat)
    ensures Published(Attempt(Attempt(d, legacy, false, power), legacy, false, PLENTY))
            == Published(Attempt(d, legacy, false, PLENTY))
  {
    hide Strip, ValidIdentity;
  }

  /** Whatever the interruptions, a start that is allowed to finish reaches the files an
      uninterrupted first start would have produced. */
  lemma {:induction false} SameEndState(d: Dir, legacy: Dir, powers: seq<nat>, power: nat)
    requires power >= PLENTY
    ensures Published(Attempt(Starts(d, legacy, powers), legacy, false, power))
            == Published(Attempt(d, legacy, false, PLENTY))
    decreases |powers|
  {
    hide Attempt;
    if powers == [] {
      PlentyFinishes(d, legacy, power);
    } else {
      InterruptionHarmless(d, legacy, powers[0]);
      SameEndState(Attempt(d, legacy, false, powers[0]), legacy, powers[1..], power);
    }
  }

  // ----- what a whole migration brings ------------------------------------

  /** An undisturbed start without settings of its own and without a conflict brings every
      legacy file that is not there yet; any other start changes nothing. */
  lemma EverythingMigrated(d: Dir, legacy: Dir, power: nat, kind: Kind)
    requires power >= PLENTY
    ensures var u := Attempt(d, legacy, false, power);
      && u.strays == d.strays
      && (d.settings.Some? || Conflicts(legacy, d) ==> u == d)
      && (d.settings.None? && !Conflicts(legacy, d) ==>
            File(u, kind) == if File(d, kind).Some? then File(d, kind) else File(legacy, kind))
  {
    hide Strip, ValidIdentity;
  }

  predicate Blanks(s: string) { forall i :: 0 <= i < |s| ==> Blank(s[i]) }

  predicate Bare(s: string) { s != "" && !Blank(s[0]) && !Blank(s[|s| - 1]) }

  lemma {:induction false} TrimsLeft(a: string, s: string)
    requires Blanks(a) && (s != "" ==> !Blank(s[0]))
    ensures TrimLeft(a + s) == s
    decreases |a|
  {
    if a == "" {
      assert a + s == s;
    } else {
      assert (a + s)[0] == a[0] && (a + s)[1..] == a[1..] + s;
      TrimsLeft(a[1..], s);
    }
  }

  lemma {:induction false} TrimsRight(s: string, b: string)
    requires Blanks(b) && (s != "" ==> !Blank(s[|s| - 1]))
    ensures TrimRight(s + b) == s
    decreases |b|
  {
    if b == "" {
      assert s + b == s;
    } else {
      var n := |b| - 1;
      assert (s + b)[|s + b| - 1] == b[n] && (s + b)[..|s + b| - 1] == s + b[..n];
      TrimsRight(s, b[..n]);
    }
  }

  /** An identity is read without the blanks around it. */
  lemma StripsAround(a: string, s: string, b: string)
    requires Blanks(a) && Blanks(b) && Bare(s)
    ensures Strip(a + s + b) == s
  {
    assert a + s + b == a + (s + b) && (s + b)[0] == s[0];
    TrimsLeft(a, s + b);
    TrimsRight(s, b);
  }

  /** Nothing is brought from a directory whose identity is not 32 hexadecimal digits, is
      another machine's, or is missing where settings would join a known machine. */
  lemma StrangersRefused(d: Dir, legacy: Dir, power: nat)
    requires d.settings.None?
    requires
      || (legacy.identity.Some? && !ValidIdentity(Strip(legacy.identity.value)))
      || (legacy.identity.Some? && d.identity.Some? && Strip(legacy.identity.value) != Strip(d.identity.value))
      || (legacy.identity.None? && legacy.settings.Some? && d.identity.Some?)
    ensures Attempt(d, legacy, false, power) == d
  {
  }

  lemma IdentityDigits(s: string)
    ensures ValidIdentity(s) <==> |s| == 32 && forall c :: c in s ==> c in "0123456789abcdef"
  {
    assert forall c: char :: c in "0123456789abcdef" <==> '0' <= c <= '9' || 'a' <= c <= 'f';
    assert forall i :: 0 <= i < |s| ==> s[i] in s;
  }
}
