/** The invariant of the topology over every sequence of transactions. */
module TopologyRuns {
  import opened Common
  import opened Topology

  datatype Step =
    | DoCreate(id: Id, name: string, room: Id, site: Option<Id>, at: Endpoint, now: nat)
    | DoDelete(id: Id, now: nat)
    | DoEdit(admin: bool, id: Id, e: Edit, expected: nat, now: nat)
    | DoRestore(id: Id, now: nat)
    | DoRebind(admin: bool, confirmed: bool, id: Id, at: Endpoint, expected: nat,
               duplicate: Option<Id>, duplicateStamp: Option<nat>, now: nat)
    | DoRetire(retired: Id, online: bool)
    | DoPurge(confirmed: bool)
    | DoCreateRoom(newRoom: Room)
    | DoDeleteRoom(room: Id, expectedName: string, monitored: bool)
    | DoAddSite(added: Id)

  // Generated ids are new.
  predicate Can(t: Topology, step: Step) {
    match step
    case DoCreate(id, _, _, _, _, _) => id !in t.devices
    case DoCreateRoom(room) => !HasRoom(t, room.id)
    case DoAddSite(site) => site !in t.sites
    case _ => true
  }

  ghost function Tried(t: Topology, step: Step): Result
    requires Can(t, step)
  {
    match step
    case DoCreate(id, name, room, site, at, now) => Create(t, id, name, room, site, at, now)
    case DoDelete(id, now) => Delete(t, id, now)
    case DoEdit(admin, id, e, expected, now) => EditDevice(t, admin, id, e, expected, now)
    case DoRestore(id, now) => Restore(t, id, now)
    case DoRebind(admin, confirmed, id, at, expected, duplicate, duplicateStamp, now) =>
      Rebind(t, admin, confirmed, id, at, expected, duplicate, duplicateStamp, now)
    case DoRetire(site, online) => Retire(t, site, online)
    case DoPurge(confirmed) => Purge(t, confirmed)
    case DoCreateRoom(room) => CreateRoom(t, room)
    case DoDeleteRoom(room, expectedName, monitored) => DeleteRoom(t, room, expectedName, monitored)
    case DoAddSite(site) => AddSite(t, site)
  }

  ghost function Next(t: Topology, step: Step): Topology
    requires Can(t, step)
  {
    match Tried(t, step)
    case Done(u) => u
    case Refused(_) => t
  }

  ghost predicate Runs(t: Topology, steps: seq<Step>)
    decreases |steps|
  {
    steps == [] || (Can(t, steps[0]) && Runs(Next(t, steps[0]), steps[1..]))
  }

  ghost function Run(t: Topology, steps: seq<Step>): Topology
    requires Runs(t, steps)
    decreases |steps|
  {
    if steps == [] then t else Run(Next(t, steps[0]), steps[1..])
  }

  // ----- the invariant ----------------------------------------------------

  predicate Clash(d: Device, e: Device) {
    d.enabled && e.enabled
    && ((d.site == e.site && d.at == e.at) || (d.room == e.room && Lower(d.name) == Lower(e.name)))
  }

  predicate NoClash(t: Topology) {
    forall i, j :: i in t.devices && j in t.devices && i != j ==> !Clash(t.devices[i], t.devices[j])
  }

  predicate Placed(t: Topology) {
    forall id :: id in t.devices ==>
      HasRoom(t, t.devices[id].room) && (t.devices[id].enabled ==> Active(t, t.devices[id].site))
  }

  predicate LinkSound(t: Topology, id: Id)
    requires id in t.links
  {
    && id in t.devices && !t.devices[id].enabled
    && t.links[id] in t.devices && t.links[id] !in t.links
  }

  predicate Linked(t: Topology) {
    forall id :: id in t.links ==> LinkSound(t, id)
  }

  /** Enabled devices have distinct addresses per site and distinct folded names per
      room, sit in existing rooms on non-retired sites and within the capacity; every
      linked duplicate is disabled and no canonical device is itself a duplicate. */
  predicate Inv(t: Topology) {
    NoClash(t) && Placed(t) && Linked(t) && |EnabledIds(t)| <= t.capacity
  }

  // ----- one device written -----------------------------------------------

  predicate Fits(t: Topology, id: Id, v: Device) {
    && HasRoom(t, v.room) && Active(t, v.site)
    && !NameTaken(t, Some(id), v.room, v.name) && !AddressTaken(t, Some(id), v.site, v.at)
  }

  lemma PutKeeps(t: Topology, id: Id, v: Device, bumped: set<Id>)
    requires Inv(t)
    requires v.enabled ==> Fits(t, id, v)
    requires HasRoom(t, v.room)
    requires v.enabled ==> Active(t, v.site)
    requires id in t.links ==> !v.enabled
    requires v.enabled ==> id in EnabledIds(t) || |EnabledIds(t)| < t.capacity
    ensures Inv(Put(t, id, v, bumped))
  {
    hide NoClash, Placed, Linked, Put, Fits;
    PutClash(t, id, v, bumped);
    PutPlaced(t, id, v, bumped);
    PutLinked(t, id, v, bumped);
    PutCounted(t, id, v, bumped);
  }

  lemma PutCounted(t: Topology, id: Id, v: Device, bumped: set<Id>)
    requires |EnabledIds(t)| <= t.capacity
    requires v.enabled ==> id in EnabledIds(t) || |EnabledIds(t)| < t.capacity
    ensures |EnabledIds(Put(t, id, v, bumped))| <= t.capacity && Put(t, id, v, bumped).capacity == t.capacity
  {
    var u := Put(t, id, v, bumped);
    if v.enabled {
      assert EnabledIds(u) == EnabledIds(t) + {id};
    } else {
      assert EnabledIds(u) == EnabledIds(t) - {id};
      Smaller(EnabledIds(u), EnabledIds(t));
    }
  }

  lemma PutPlaced(t: Topology, id: Id, v: Device, bumped: set<Id>)
    requires Placed(t) && HasRoom(t, v.room) && (v.enabled ==> Active(t, v.site))
    ensures Placed(Put(t, id, v, bumped))
  {
    var u := Put(t, id, v, bumped);
    forall i | i in u.devices ensures HasRoom(u, u.devices[i].room) {
      var d := if i == id then v else t.devices[i];
      SameRooms(t, u, d.room);
    }
  }

  lemma PutLinked(t: Topology, id: Id, v: Device, bumped: set<Id>)
    requires Linked(t) && (id in t.links ==> !v.enabled)
    ensures Linked(Put(t, id, v, bumped))
  {
    var u := Put(t, id, v, bumped);
    forall i | i in u.links ensures LinkSound(u, i) {
      assert LinkSound(t, i);
    }
  }

  lemma PutClash(t: Topology, id: Id, v: Device, bumped: set<Id>)
    requires NoClash(t) && (v.enabled ==> Fits(t, id, v))
    ensures NoClash(Put(t, id, v, bumped))
  {
    var u := Put(t, id, v, bumped);
    forall i, j | i in u.devices && j in u.devices && i != j ensures !Clash(u.devices[i], u.devices[j]) {
      if i == id && v.enabled {
        FitsAlone(t, id, v, j);
      } else if j == id && v.enabled {
        FitsAlone(t, id, v, i);
      }
    }
  }

  lemma FitsAlone(t: Topology, id: Id, v: Device, j: Id)
    requires v.enabled && Fits(t, id, v) && j in t.devices && j != id
    ensures !Clash(v, t.devices[j])
  {
    assert Some(id) != Some(j);
  }

  lemma SameRooms(t: Topology, u: Topology, room: Id)
    requires t.rooms == u.rooms && HasRoom(t, room)
    ensures HasRoom(u, room)
  {
  }

  lemma Smaller(a: set<Id>, b: set<Id>)
    requires a <= b
    ensures |a| <= |b|
  {
    assert |b - a| == |b| - |a|;
  }

  // ----- each transaction -------------------------------------------------

  lemma CreateKeeps(t: Topology, id: Id, name: string, room: Id, site: Option<Id>, at: Endpoint, now: nat)
    requires Inv(t) && id !in t.devices
    ensures Create(t, id, name, room, site, at, now).Done? ==> Inv(Create(t, id, name, room, site, at, now).topology)
  {
    var r := Create(t, id, name, room, site, at, now);
    if r.Done? {
      var s := ChosenSite(t, site).site;
      var v := Device(name, room, s, at, true, now);
      assert Active(t, s);
      assert !NameTaken(t, Some(id), room, name) by {
        assert !NameTaken(t, None, room, name);
      }
      assert !AddressTaken(t, Some(id), s, at) by {
        assert !AddressTaken(t, None, s, at);
      }
      assert id in t.links ==> LinkSound(t, id);
      PutKeeps(t, id, v, {s});
    }
  }

  lemma DeleteKeeps(t: Topology, id: Id, now: nat)
    requires Inv(t)
    ensures Delete(t, id, now).Done? ==> Inv(Delete(t, id, now).topology)
  {
    if id in t.devices && t.devices[id].enabled {
      var d := t.devices[id];
      PutKeeps(t, id, d.(enabled := false, stamp := now), {d.site});
    }
  }

  lemma EditKeeps(t: Topology, admin: bool, id: Id, e: Edit, expected: nat, now: nat)
    requires Inv(t)
    ensures var r := EditDevice(t, admin, id, e, expected, now); r.Done? ==> Inv(r.topology)
  {
    hide ValidConnection, NoClash, Placed, Linked;
    var r := EditDevice(t, admin, id, e, expected, now);
    if r.Done? && r != Done(t) {
      var d := t.devices[id];
      var v := Edited(d, e);
      EnabledUnlinked(t, id);
      assert id in EnabledIds(t);
      PutKeeps(t, id, v.(stamp := now), {d.site, v.site});
    }
  }

  lemma EnabledUnlinked(t: Topology, id: Id)
    requires Inv(t) && id in t.devices && t.devices[id].enabled
    ensures id !in t.links
  {
    assert id in t.links ==> LinkSound(t, id);
  }

  lemma RestoreKeeps(t: Topology, id: Id, now: nat)
    requires Inv(t)
    ensures Restore(t, id, now).Done? ==> Inv(Restore(t, id, now).topology)
  {
    var r := Restore(t, id, now);
    if r.Done? && r != Done(t) {
      var d := t.devices[id];
      PutKeeps(t, id, d.(enabled := true, stamp := now), {d.site});
    }
  }

  // The duplicate switched off and linked.
  function SwitchedOff(t: Topology, dup: Id, id: Id, now: nat): Topology
    requires dup in t.devices
  {
    t.(devices := t.devices[dup := t.devices[dup].(enabled := false, stamp := now)], links := t.links[dup := id])
  }

  lemma SwitchOffKeeps(t: Topology, dup: Id, id: Id, now: nat)
    requires Inv(t) && dup in t.devices && id in t.devices && dup != id
    requires id !in t.links && dup !in t.links.Values
    ensures Inv(SwitchedOff(t, dup, id, now))
  {
    var u := SwitchedOff(t, dup, id, now);
    PutKeepsOff(t, dup, now);
    var mid := Put(t, dup, t.devices[dup].(enabled := false, stamp := now), {});
    assert EnabledIds(u) == EnabledIds(mid);
    forall i | i in u.devices ensures HasRoom(u, u.devices[i].room) {
      SameRooms(t, u, t.devices[i].room);
    }
    forall i | i in u.links ensures LinkSound(u, i) {
      if i != dup {
        assert LinkSound(t, i);
        assert t.links[i] in t.links.Values;
      }
    }
  }

  lemma PutKeepsOff(t: Topology, id: Id, now: nat)
    requires Inv(t) && id in t.devices
    ensures Inv(Put(t, id, t.devices[id].(enabled := false, stamp := now), {}))
  {
    PutKeeps(t, id, t.devices[id].(enabled := false, stamp := now), {});
  }

  lemma MovedKeeps(t: Topology, u: Topology, id: Id, at: Endpoint, now: nat)
    requires Inv(u) && id in u.devices && u.devices[id].enabled
    ensures Moved(t, u, id, at, now).Done? ==> Inv(Moved(t, u, id, at, now).topology)
  {
    var r := Moved(t, u, id, at, now);
    if r.Done? {
      var d := u.devices[id];
      EnabledUnlinked(u, id);
      assert id in EnabledIds(u);
      PutKeeps(u, id, d.(at := at, stamp := now), {d.site});
      if at == d.at {
        PutKeeps(u, id, d, {d.site});
        assert u.devices[id := d] == u.devices;
      }
    }
  }

  lemma RebindKeeps(t: Topology, admin: bool, confirmed: bool, id: Id, at: Endpoint, expected: nat,
                    duplicate: Option<Id>, duplicateStamp: Option<nat>, now: nat)
    requires Inv(t)
    ensures var r := Rebind(t, admin, confirmed, id, at, expected, duplicate, duplicateStamp, now);
      r.Done? ==> Inv(r.topology)
  {
    hide Inv, Moved, ValidConnection;
    var r := Rebind(t, admin, confirmed, id, at, expected, duplicate, duplicateStamp, now);
    if r.Done? && r != Done(t) {
      if duplicate.None? {
        MovedKeeps(t, t, id, at, now);
      } else {
        var dup := duplicate.value;
        SwitchOffKeeps(t, dup, id, now);
        MovedKeeps(t, SwitchedOff(t, dup, id, now), id, at, now);
      }
    }
  }

  lemma RetireKeeps(t: Topology, site: Id, online: bool)
    requires Inv(t)
    ensures Retire(t, site, online).Done? ==> Inv(Retire(t, site, online).topology)
  {
    var r := Retire(t, site, online);
    if r.Done? && r != Done(t) {
      var u := r.topology;
      assert EnabledIds(u) == EnabledIds(t);
      forall i | i in u.devices
        ensures HasRoom(u, u.devices[i].room) && (u.devices[i].enabled ==> Active(u, u.devices[i].site))
      {
        SameRooms(t, u, u.devices[i].room);
        if u.devices[i].enabled {
          assert i in EnabledIds(t) && Active(t, t.devices[i].site);
        }
      }
      forall i | i in u.links ensures LinkSound(u, i) {
        assert LinkSound(t, i);
      }
    }
  }

  lemma PurgeKeeps(t: Topology, confirmed: bool)
    requires Inv(t)
    ensures Purge(t, confirmed).Done? ==> Inv(Purge(t, confirmed).topology)
    ensures Purge(t, confirmed).Done? ==> Purge(t, confirmed).topology.links == map[]
  {
    if confirmed {
      var u := Purge(t, confirmed).topology;
      assert EnabledIds(u) == EnabledIds(t);
      forall i | i in u.devices ensures HasRoom(u, u.devices[i].room) {
        SameRooms(t, u, u.devices[i].room);
      }
      forall i ensures i !in u.links {
        assert i in t.links ==> LinkSound(t, i);
      }
    }
  }

  lemma {:induction false} WithoutKeeps(rooms: seq<Room>, id: Id)
    ensures forall r :: r in Without(rooms, id) <==> r in rooms && r.id != id
  {
    if rooms != [] {
      WithoutKeeps(rooms[1..], id);
      assert rooms == [rooms[0]] + rooms[1..];
    }
  }

  lemma RoomsKeep(t: Topology, u: Topology)
    requires Inv(t) && u.devices == t.devices && u.links == t.links && u.capacity == t.capacity
    requires forall s :: Active(t, s) ==> Active(u, s)
    requires forall id :: id in t.devices ==> HasRoom(u, t.devices[id].room)
    ensures Inv(u)
  {
    assert EnabledIds(u) == EnabledIds(t);
    forall i | i in u.links ensures LinkSound(u, i) {
      assert LinkSound(t, i);
    }
  }

  lemma CreateRoomKeeps(t: Topology, room: Room)
    requires Inv(t)
    ensures CreateRoom(t, room).Done? ==> Inv(CreateRoom(t, room).topology)
  {
    var r := CreateRoom(t, room);
    if r.Done? {
      forall id | id in t.devices ensures HasRoom(r.topology, t.devices[id].room) {
        var i :| 0 <= i < |t.rooms| && t.rooms[i].id == t.devices[id].room;
        assert r.topology.rooms[i] == t.rooms[i];
      }
      RoomsKeep(t, r.topology);
    }
  }

  lemma DeleteRoomKeeps(t: Topology, room: Id, expectedName: string, monitored: bool)
    requires Inv(t)
    ensures var r := DeleteRoom(t, room, expectedName, monitored); r.Done? ==> Inv(r.topology)
  {
    var r := DeleteRoom(t, room, expectedName, monitored);
    if r.Done? {
      WithoutKeeps(t.rooms, room);
      forall id | id in t.devices ensures HasRoom(r.topology, t.devices[id].room) {
        var i :| 0 <= i < |t.rooms| && t.rooms[i].id == t.devices[id].room;
        assert t.rooms[i] in r.topology.rooms;
      }
      RoomsKeep(t, r.topology);
    }
  }

  lemma AddSiteKeeps(t: Topology, site: Id)
    requires Inv(t) && site !in t.sites
    ensures AddSite(t, site).Done? && Inv(AddSite(t, site).topology)
  {
    var u := AddSite(t, site).topology;
    forall id | id in t.devices ensures HasRoom(u, t.devices[id].room) {
      SameRooms(t, u, t.devices[id].room);
    }
    RoomsKeep(t, u);
  }

  lemma StepKeepsInv(t: Topology, step: Step)
    requires Inv(t) && Can(t, step)
    ensures Inv(Next(t, step))
  {
    hide Inv, Create, Delete, EditDevice, Restore, Rebind, Retire, Purge, CreateRoom, DeleteRoom, AddSite;
    match step
    case DoCreate(id, name, room, site, at, now) => CreateKeeps(t, id, name, room, site, at, now);
    case DoDelete(id, now) => DeleteKeeps(t, id, now);
    case DoEdit(admin, id, e, expected, now) => EditKeeps(t, admin, id, e, expected, now);
    case DoRestore(id, now) => RestoreKeeps(t, id, now);
    case DoRebind(admin, confirmed, id, at, expected, duplicate, duplicateStamp, now) =>
      RebindKeeps(t, admin, confirmed, id, at, expected, duplicate, duplicateStamp, now);
    case DoRetire(site, online) => RetireKeeps(t, site, online);
    case DoPurge(confirmed) => PurgeKeeps(t, confirmed);
    case DoCreateRoom(room) => CreateRoomKeeps(t, room);
    case DoDeleteRoom(room, expectedName, monitored) => DeleteRoomKeeps(t, room, expectedName, monitored);
    case DoAddSite(site) => AddSiteKeeps(t, site);
  }

  /** The invariant holds after every sequence of transactions, refused ones included. */
  lemma {:induction false} RunKeepsInv(t: Topology, steps: seq<Step>)
    requires Inv(t) && Runs(t, steps)
    ensures Inv(Run(t, steps))
    decreases |steps|
  {
    hide Next, Can, Inv;
    if steps != [] {
      StepKeepsInv(t, steps[0]);
      RunKeepsInv(Next(t, steps[0]), steps[1..]);
    }
  }

  /** From a customer without devices every sequence of transactions leads to enabled
      devices that never share an address on a site or a folded name in a room, stand
      in an existing room on an active site, and are at most `capacity` many. */
  lemma EveryTopologySound(t: Topology, steps: seq<Step>, i: Id, j: Id)
    requires t.devices == map[] && t.links == map[] && Runs(t, steps)
    requires var u := Run(t, steps); i in EnabledIds(u) && j in EnabledIds(u)
    ensures var u := Run(t, steps); var d, e := u.devices[i], u.devices[j];
      && (d.site == e.site && d.at == e.at ==> i == j)
      && (d.room == e.room && Lower(d.name) == Lower(e.name) ==> i == j)
      && HasRoom(u, d.room) && Active(u, d.site) && i !in u.links && |EnabledIds(u)| <= u.capacity
  {
    hide Next, Can, Runs, Run, HasRoom, Active;
    assert EnabledIds(t) == {};
    RunKeepsInv(t, steps);
    EnabledUnlinked(Run(t, steps), i);
    if i != j {
      assert !Clash(Run(t, steps).devices[i], Run(t, steps).devices[j]);
    }
  }

  // ----- a linked duplicate never comes back ------------------------------

  predicate Off(t: Topology, id: Id) {
    id in t.devices && !t.devices[id].enabled && id in t.links
  }

  lemma StepKeepsOff(t: Topology, step: Step, id: Id)
    requires Inv(t) && Off(t, id) && Can(t, step)
    requires !(step.DoPurge? && step.confirmed)
    ensures Off(Next(t, step), id)
  {
    hide Inv, TargetError, ChosenSite, ValidConnection, Bump;
  }

  predicate NoPurge(steps: seq<Step>) {
    forall i :: 0 <= i < |steps| ==> !(steps[i].DoPurge? && steps[i].confirmed)
  }

  /** A registration linked as a duplicate stays disabled and linked until retired
      devices are purged: no restore, edit or rebind revives it. */
  lemma {:induction false} DuplicateStaysOff(t: Topology, steps: seq<Step>, id: Id)
    requires Inv(t) && Off(t, id) && Runs(t, steps) && NoPurge(steps)
    ensures Off(Run(t, steps), id)
    decreases |steps|
  {
    hide Next, Can, Inv, Off;
    if steps != [] {
      assert !(steps[0].DoPurge? && steps[0].confirmed);
      StepKeepsInv(t, steps[0]);
      StepKeepsOff(t, steps[0], id);
      assert NoPurge(steps[1..]);
      DuplicateStaysOff(Next(t, steps[0]), steps[1..], id);
    }
  }
}
