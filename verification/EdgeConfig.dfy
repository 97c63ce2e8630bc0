/** A collector pulling its configuration: fetch, skip or apply, remember, save, with a
    crash possible between any two of them while the cloud moves on. */
module EdgeConfig {
  import opened Common
  import opened Topology
  import opened Revision

  datatype LocalRoom = LocalRoom(name: string, limits: nat)

  // site is None for a device entered at the collector itself.
  datatype LocalDevice = LocalDevice(name: string, room: Id, site: Option<Id>, at: Endpoint, enabled: bool)

  datatype Local = Local(rooms: map<Id, LocalRoom>, devices: map<Id, LocalDevice>)

  // ----- applying a snapshot ----------------------------------------------

  predicate NameHeld(rooms: map<Id, LocalRoom>, id: Id, name: string) {
    exists r :: r in rooms && r != id && Lower(rooms[r].name) == Lower(name)
  }

  // One upsert per room; the unique index on folded names makes a clash fail the whole.
  function ApplyRooms(rooms: map<Id, LocalRoom>, sent: seq<Room>): Option<map<Id, LocalRoom>>
    decreases |sent|
  {
    if sent == [] then Some(rooms)
    else if NameHeld(rooms, sent[0].id, sent[0].name) then None
    else ApplyRooms(rooms[sent[0].id := LocalRoom(sent[0].name, sent[0].limits)], sent[1..])
  }

  predicate Mine(d: LocalDevice, site: Id) { d.site == Some(site) || d.site.None? }

  function ApplyDevices(devices: map<Id, LocalDevice>, site: Id, entries: map<Id, Entry>): map<Id, LocalDevice> {
    map id | id in devices.Keys + entries.Keys ::
      if id in entries then LocalDevice(entries[id].name, entries[id].room, Some(site), entries[id].at, true)
      else if Mine(devices[id], site) then devices[id].(enabled := false) else devices[id]
  }

  predicate DistinctAddresses(entries: map<Id, Entry>) {
    forall i, j :: i in entries && j in entries && i != j ==> entries[i].at != entries[j].at
  }

  // The local transaction: all of the snapshot or nothing.
  function Apply(l: Local, site: Id, s: Snapshot): Option<Local> {
    var rooms := ApplyRooms(l.rooms, s.rooms);
    if rooms.None? || !DistinctAddresses(s.devices) then None
    else Some(Local(rooms.value, ApplyDevices(l.devices, site, s.devices)))
  }

  // What the collector polls for its site.
  function Inventory(l: Local, site: Id): map<Id, Entry> {
    map id | id in l.devices && l.devices[id].enabled && Mine(l.devices[id], site) ::
      Entry(l.devices[id].name, l.devices[id].room, l.devices[id].at)
  }

  predicate Matches(l: Local, site: Id, s: Snapshot) {
    && Inventory(l, site) == s.devices
    && forall i :: 0 <= i < |s.rooms| ==>
         s.rooms[i].id in l.rooms && l.rooms[s.rooms[i].id] == LocalRoom(s.rooms[i].name, s.rooms[i].limits)
  }

  predicate DistinctRooms(rooms: seq<Room>) {
    forall i, j :: 0 <= i < j < |rooms| ==> rooms[i].id != rooms[j].id
  }

  predicate NotSent(sent: seq<Room>, r: Id) { forall i :: 0 <= i < |sent| ==> sent[i].id != r }

  lemma {:induction false} RoomsApplied(rooms: map<Id, LocalRoom>, sent: seq<Room>)
    requires DistinctRooms(sent) && ApplyRooms(rooms, sent).Some?
    ensures var after := ApplyRooms(rooms, sent).value;
      && (forall i :: 0 <= i < |sent| ==>
            sent[i].id in after && after[sent[i].id] == LocalRoom(sent[i].name, sent[i].limits))
      && (forall r :: r in rooms && NotSent(sent, r) ==> r in after && after[r] == rooms[r])
    decreases |sent|
  {
    if sent != [] {
      var rest := sent[1..];
      assert DistinctRooms(rest);
      RoomsApplied(rooms[sent[0].id := LocalRoom(sent[0].name, sent[0].limits)], rest);
      forall i | 0 <= i < |sent| ensures
        sent[i].id in ApplyRooms(rooms, sent).value
        && ApplyRooms(rooms, sent).value[sent[i].id] == LocalRoom(sent[i].name, sent[i].limits)
      {
        if i > 0 {
          assert rest[i - 1] == sent[i];
        }
      }
    }
  }

  /** A successful apply makes the local inventory the snapshot's. */
  lemma AppliedMatches(l: Local, site: Id, s: Snapshot)
    requires DistinctRooms(s.rooms) && Apply(l, site, s).Some?
    ensures Matches(Apply(l, site, s).value, site, s)
  {
    RoomsApplied(l.rooms, s.rooms);
    var after := Apply(l, site, s).value;
    assert Inventory(after, site).Keys == s.devices.Keys;
  }

  // ----- when an apply succeeds -------------------------------------------

  // Room k's name is held by a local room that no earlier upsert has renamed.
  predicate Blocked(rooms: map<Id, LocalRoom>, sent: seq<Room>, k: nat)
    requires k < |sent|
  {
    exists r :: r in rooms && HeldBy(rooms, sent, k, r)
  }

  predicate HeldBy(rooms: map<Id, LocalRoom>, sent: seq<Room>, k: nat, r: Id)
    requires k < |sent| && r in rooms
  {
    && r != sent[k].id && Lower(rooms[r].name) == Lower(sent[k].name)
    && forall i :: 0 <= i < k ==> sent[i].id != r
  }

  predicate DistinctNames(rooms: seq<Room>) {
    forall i, j :: 0 <= i < j < |rooms| ==> Lower(rooms[i].name) != Lower(rooms[j].name)
  }

  lemma {:induction false} RoomsFailIff(rooms: map<Id, LocalRoom>, sent: seq<Room>)
    requires DistinctRooms(sent) && DistinctNames(sent)
    ensures ApplyRooms(rooms, sent).None? <==> exists k: nat :: k < |sent| && Blocked(rooms, sent, k)
    decreases |sent|
  {
    if sent != [] {
      var rest := sent[1..];
      var next := rooms[sent[0].id := LocalRoom(sent[0].name, sent[0].limits)];
      assert NameHeld(rooms, sent[0].id, sent[0].name) <==> Blocked(rooms, sent, 0);
      forall i, j | 0 <= i < j < |rest| ensures rest[i].id != rest[j].id && Lower(rest[i].name) != Lower(rest[j].name) {
        assert rest[i] == sent[i + 1] && rest[j] == sent[j + 1];
      }
      RoomsFailIff(next, rest);
      forall k: nat | k < |rest| ensures Blocked(next, rest, k) <==> Blocked(rooms, sent, k + 1) {
        BlockedLater(rooms, sent, k);
      }
      if k: nat :| k < |sent| && Blocked(rooms, sent, k) {
        if k > 0 {
          assert Blocked(next, rest, k - 1);
        }
      }
    }
  }

  lemma BlockedLater(rooms: map<Id, LocalRoom>, sent: seq<Room>, k: nat)
    requires DistinctRooms(sent) && DistinctNames(sent) && k + 1 < |sent|
    ensures Blocked(rooms[sent[0].id := LocalRoom(sent[0].name, sent[0].limits)], sent[1..], k)
            <==> Blocked(rooms, sent, k + 1)
  {
    var rest := sent[1..];
    var next := rooms[sent[0].id := LocalRoom(sent[0].name, sent[0].limits)];
    assert rest[k] == sent[k + 1];
    if r :| r in next && HeldBy(next, rest, k, r) {
      assert Lower(sent[0].name) != Lower(sent[k + 1].name);
      forall i | 0 <= i < k + 1 ensures sent[i].id != r {
        assert i > 0 ==> rest[i - 1] == sent[i];
      }
      assert HeldBy(rooms, sent, k + 1, r);
    }
    if r :| r in rooms && HeldBy(rooms, sent, k + 1, r) {
      assert sent[0].id != r;
      forall i | 0 <= i < k ensures rest[i].id != r {
        assert rest[i] == sent[i + 1];
      }
      assert HeldBy(next, rest, k, r);
    }
  }

  predicate Hindered(rooms: map<Id, LocalRoom>, sent: seq<Room>) {
    exists k: nat :: k < |sent| && Blocked(rooms, sent, k)
  }

  /** An apply fails exactly when two of its devices share an address or some room's new
      name is still held by another local room: one the cloud deleted, or one later in
      the list that is itself being renamed. */
  lemma ApplyFailsIff(l: Local, site: Id, s: Snapshot)
    requires DistinctRooms(s.rooms) && DistinctNames(s.rooms)
    ensures Apply(l, site, s).None? <==> Hindered(l.rooms, s.rooms) || !DistinctAddresses(s.devices)
  {
    RoomsFailIff(l.rooms, s.rooms);
  }

  // ----- the pulling collector --------------------------------------------

  datatype Phase = Idle | Fetched | Applied | Remembered

  // memory and saved: the applied revision in the process and in the database;
  // revision and snapshot: the last answer; published: what each revision meant;
  // current: the revision whose snapshot the local tables last took.
  datatype System = System(cloud: Topology, local: Local, memory: Option<nat>, saved: Option<nat>, phase: Phase,
                           revision: nat, snapshot: Snapshot, published: map<nat, Snapshot>, current: Option<nat>)

  datatype Step =
    | Cloud(change: Change)
    | Fetch
    | Skip     // the revision is the remembered one
    | TryApply
    | Remember
    | Save
    | SaveFails // the database write raised; the process keeps its memory
    | Crash     // the process ends wherever it was

  ghost predicate CanStep(s: System, site: Id, step: Step) {
    site in s.cloud.sites &&
    match step
    case Cloud(c) => Can(s.cloud, c)
    case Fetch => s.phase.Idle? && !s.cloud.sites[site].retired
    case Skip => s.phase.Fetched? && s.memory == Some(s.revision)
    case TryApply => s.phase.Fetched? && s.memory != Some(s.revision)
    case Remember => s.phase.Applied?
    case Save => s.phase.Remembered?
    case SaveFails => s.phase.Remembered?
    case Crash => true
  }

  ghost function NextStep(s: System, site: Id, step: Step): System
    requires CanStep(s, site, step)
  {
    match step
    case Cloud(c) => CloudMoves(s, site, c)
    case Fetch => s.(phase := Fetched, revision := s.cloud.sites[site].revision, snapshot := SnapshotOf(s.cloud, site))
    case Skip => s.(phase := Idle)
    case TryApply =>
      var after := Apply(s.local, site, s.snapshot);
      if after.None? then s.(phase := Idle)
      else s.(local := after.value, phase := Applied, current := Some(s.revision))
    case Remember => s.(memory := Some(s.revision), phase := Remembered)
    case Save => s.(saved := Some(s.revision), phase := Idle)
    case SaveFails => s.(phase := Idle)
    case Crash => s.(memory := s.saved, phase := Idle)
  }

  ghost function CloudMoves(s: System, site: Id, c: Change): System
    requires site in s.cloud.sites && Can(s.cloud, c)
  {
    ChangeRaises(s.cloud, c, site);
    var cloud := Revision.Next(s.cloud, c);
    s.(cloud := cloud, published := s.published[cloud.sites[site].revision := SnapshotOf(cloud, site)])
  }

  predicate NotAhead(o: Option<nat>, current: Option<nat>) {
    o.Some? ==> current.Some? && o.value <= current.value
  }

  predicate Published(s: System, site: Id)
    requires site in s.cloud.sites
  {
    && s.cloud.sites[site].revision in s.published
    && s.published[s.cloud.sites[site].revision] == SnapshotOf(s.cloud, site)
    && (forall r :: r in s.published ==> r <= s.cloud.sites[site].revision)
    && (forall r :: r in s.published ==> DistinctRooms(s.published[r].rooms))
  }

  predicate Inv(s: System, site: Id) {
    && site in s.cloud.sites
    && Published(s, site)
    && (s.current.Some? ==> s.current.value in s.published && Matches(s.local, site, s.published[s.current.value]))
    && NotAhead(s.memory, s.current) && NotAhead(s.saved, s.current)
    && (!s.phase.Idle? ==>
          s.revision in s.published && s.snapshot == s.published[s.revision] && NotAhead(s.current, Some(s.revision)))
    && (s.phase.Applied? || s.phase.Remembered? ==> s.current == Some(s.revision))
  }

  lemma DistinctAfter(t: Topology, c: Change)
    requires DistinctRooms(t.rooms) && Can(t, c)
    ensures DistinctRooms(Revision.Next(t, c).rooms)
  {
    hide TargetError, ValidConnection, NameTaken, AddressTaken, ChosenSite;
    if c.Settings? {
      forall i, j | 0 <= i < j < |c.rooms| ensures c.rooms[i].id != c.rooms[j].id {
        assert t.rooms[i].id != t.rooms[j].id;
      }
    } else if c.step.DoDeleteRoom? {
      DistinctWithout(t.rooms, c.step.room);
    }
  }

  lemma {:induction false} DistinctWithout(rooms: seq<Room>, id: Id)
    requires DistinctRooms(rooms)
    ensures DistinctRooms(Without(rooms, id))
    decreases |rooms|
  {
    if rooms != [] {
      assert DistinctRooms(rooms[1..]);
      DistinctWithout(rooms[1..], id);
      T.WithoutKeeps(rooms[1..], id);
      var rest := Without(rooms[1..], id);
      forall j | 0 <= j < |rest| ensures rest[j].id != rooms[0].id {
        assert rest[j] in rooms[1..];
      }
    }
  }

  lemma CloudKeeps(s: System, site: Id, c: Change)
    requires Inv(s, site) && Can(s.cloud, c)
    ensures Inv(CloudMoves(s, site, c), site)
  {
    hide Revision.Next, Revision.Can, SnapshotOf, Matches;
    ChangeRaises(s.cloud, c, site);
    RoomsOf(s.cloud, site);
    DistinctAfter(s.cloud, c);
    RoomsOf(Revision.Next(s.cloud, c), site);
  }

  lemma RoomsOf(t: Topology, site: Id)
    ensures SnapshotOf(t, site).rooms == t.rooms
  {
  }

  lemma StepKeepsInv(s: System, site: Id, step: Step)
    requires Inv(s, site) && CanStep(s, site, step)
    ensures Inv(NextStep(s, site, step), site)
  {
    hide Matches, SnapshotOf, Apply, Revision.Can, CloudMoves;
    match step
    case Cloud(c) => CloudKeeps(s, site, c);
    case TryApply =>
      if Apply(s.local, site, s.snapshot).Some? {
        AppliedMatches(s.local, site, s.snapshot);
      }
    case _ =>
  }

  ghost predicate Runs(s: System, site: Id, steps: seq<Step>)
    decreases |steps|
  {
    steps == [] || (CanStep(s, site, steps[0]) && Runs(NextStep(s, site, steps[0]), site, steps[1..]))
  }

  ghost function Run(s: System, site: Id, steps: seq<Step>): System
    requires Runs(s, site, steps)
    decreases |steps|
  {
    if steps == [] then s else Run(NextStep(s, site, steps[0]), site, steps[1..])
  }

  lemma {:induction false} RunKeepsInv(s: System, site: Id, steps: seq<Step>)
    requires Inv(s, site) && Runs(s, site, steps)
    ensures Inv(Run(s, site, steps), site)
    decreases |steps|
  {
    hide Inv, CanStep, NextStep;
    if steps != [] {
      StepKeepsInv(s, site, steps[0]);
      RunKeepsInv(NextStep(s, site, steps[0]), site, steps[1..]);
    }
  }

  // A collector before its first pull.
  predicate Fresh(s: System, site: Id) {
    && site in s.cloud.sites && DistinctRooms(s.cloud.rooms)
    && s.published == map[s.cloud.sites[site].revision := SnapshotOf(s.cloud, site)]
    && s.memory.None? && s.saved.None? && s.current.None? && s.phase.Idle?
  }

  /** Over every run, crashes between apply and save and failed applies included: when
      the answer carries the remembered revision the local tables already match it, so
      skipping is sound; and whenever the remembered revision is the cloud's, the local
      inventory is what the cloud would send now. */
  lemma SkipIsSound(s: System, site: Id, steps: seq<Step>)
    requires Fresh(s, site) && Runs(s, site, steps)
    ensures var t := Run(s, site, steps);
      && site in t.cloud.sites
      && (t.phase.Fetched? && t.memory == Some(t.revision) ==> Matches(t.local, site, t.snapshot))
      && (t.memory == Some(t.cloud.sites[site].revision) ==> Matches(t.local, site, SnapshotOf(t.cloud, site)))
  {
    hide CanStep, NextStep, Matches, SnapshotOf, Runs, Run;
    RoomsOf(s.cloud, site);
    RunKeepsInv(s, site, steps);
  }

  // ----- what a pull brings ----------------------------------------------

  // The local device is the cloud's, switched on for this site.
  predicate Mirrors(l: Local, site: Id, t: Topology, id: Id)
    requires id in t.devices
  {
    && id in l.devices && l.devices[id].enabled && l.devices[id].site == Some(site)
    && l.devices[id].name == t.devices[id].name && l.devices[id].room == t.devices[id].room
    && l.devices[id].at == t.devices[id].at
  }

  predicate OnSite(t: Topology, site: Id, id: Id) {
    id in t.devices && t.devices[id].enabled && t.devices[id].site == site
  }

  // Of the others, those of this site or of none are switched off, not deleted, and those
  // of another site stay as they are.
  predicate LeavesRest(l: Local, u: Local, site: Id, t: Topology) {
    && (forall id :: id in l.devices ==> id in u.devices)
    && (forall id :: id in u.devices && !OnSite(t, site, id) ==>
          id in l.devices
          && u.devices[id] == if l.devices[id].site == Some(site) || l.devices[id].site.None?
                              then l.devices[id].(enabled := false) else l.devices[id])
  }

  /** A pull that is applied at once mirrors exactly the enabled devices the cloud has for
      the site, and keeps all it had on record. */
  lemma PullMirrors(s: System, site: Id)
    requires CanStep(s, site, Fetch) && CanStep(NextStep(s, site, Fetch), site, TryApply)
    requires NextStep(NextStep(s, site, Fetch), site, TryApply).phase.Applied?
    ensures var u := NextStep(NextStep(s, site, Fetch), site, TryApply);
      && u.cloud == s.cloud && u.revision == s.cloud.sites[site].revision
      && (forall id :: OnSite(s.cloud, site, id) ==> Mirrors(u.local, site, s.cloud, id))
      && LeavesRest(s.local, u.local, site, s.cloud)
  {
    hide ApplyRooms, DistinctAddresses;
  }

  /** An undisturbed pull remembers its revision, in the process and for the next one, and
      while the cloud stays as it is the next pull has nothing to apply. */
  lemma PullSettles(s: System, site: Id)
    requires CanStep(s, site, Fetch) && CanStep(NextStep(s, site, Fetch), site, TryApply)
    requires NextStep(NextStep(s, site, Fetch), site, TryApply).phase.Applied?
    ensures var a := NextStep(NextStep(s, site, Fetch), site, TryApply); CanStep(a, site, Remember)
    ensures var b := NextStep(NextStep(NextStep(s, site, Fetch), site, TryApply), site, Remember);
      CanStep(b, site, Save)
    ensures var t := Settled(s, site); var revision := Some(s.cloud.sites[site].revision);
      && t.phase.Idle? && t.memory == revision && t.saved == revision && NextStep(t, site, Crash).memory == revision
      && CanStep(t, site, Fetch) && CanStep(NextStep(t, site, Fetch), site, Skip)
      && !CanStep(NextStep(t, site, Fetch), site, TryApply)
  {
    hide Apply, SnapshotOf;
  }

  ghost function Settled(s: System, site: Id): System
    requires CanStep(s, site, Fetch) && CanStep(NextStep(s, site, Fetch), site, TryApply)
    requires NextStep(NextStep(s, site, Fetch), site, TryApply).phase.Applied?
  {
    NextStep(NextStep(NextStep(NextStep(s, site, Fetch), site, TryApply), site, Remember), site, Save)
  }
}
