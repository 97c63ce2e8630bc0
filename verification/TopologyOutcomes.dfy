/** When each topology transaction succeeds, and what it leaves: told from the tables
    before and after, without saying how the transaction gets there. */
module TopologyOutcomes {
  import opened Common
  import opened Topology
  import T = TopologyRuns

  // ----- vocabulary -------------------------------------------------------

  // Nothing but devices, links and sites differs.
  predicate SameRooms(t: Topology, u: Topology) {
    u.capacity == t.capacity && u.maxRooms == t.maxRooms && u.rooms == t.rooms
  }

  ghost predicate SameBut(t: Topology, u: Topology, ids: set<Id>) {
    forall o :: o !in ids ==> (o in t.devices <==> o in u.devices) && (o in t.devices ==> u.devices[o] == t.devices[o])
  }

  // The revisions of exactly these sites rose, by one.
  predicate Rose(t: Topology, u: Topology, ids: set<Id>) {
    u.sites.Keys == t.sites.Keys
    && forall s :: s in t.sites ==>
         u.sites[s].retired == t.sites[s].retired
         && u.sites[s].revision == t.sites[s].revision + (if s in ids then 1 else 0)
  }

  // One device written, its site's collector told.
  ghost predicate Wrote(t: Topology, u: Topology, id: Id, d: Device, told: set<Id>) {
    && SameRooms(t, u) && u.links == t.links && SameBut(t, u, {id}) && Rose(t, u, told)
    && id in u.devices && u.devices[id] == d
  }

  // Enabled devices but these leave the place free: an existing room, a live site, no
  // equal name in the room and no equal address at the site.
  predicate Free(t: Topology, but: set<Id>, room: Id, name: string, site: Id, at: Endpoint) {
    && (exists i :: 0 <= i < |t.rooms| && t.rooms[i].id == room)
    && site in t.sites && !t.sites[site].retired
    && Alone(t, but, room, name, site, at)
  }

  predicate Alone(t: Topology, but: set<Id>, room: Id, name: string, site: Id, at: Endpoint) {
    forall o :: o in t.devices && o !in but && t.devices[o].enabled ==>
      !(t.devices[o].room == room && Lower(t.devices[o].name) == Lower(name))
      && !(t.devices[o].site == site && t.devices[o].at == at)
  }

  /** The addresses a device may have are the three private ranges, in dotted quads. */
  lemma PrivateRanges(a: nat, b: nat, c: nat, d: nat)
    requires a < 256 && b < 256 && c < 256 && d < 256
    ensures Private(((a * 256 + b) * 256 + c) * 256 + d) <==>
      a == 10 || (a == 172 && 16 <= b < 32) || (a == 192 && b == 168)
  {
  }

  // What a form may hold.
  predicate Plausible(name: string, at: Endpoint) {
    1 <= |name| <= 100 && Private(at.host) && 1 <= at.port <= 65535 && 1 <= at.slave <= 247
  }

  lemma TargetFree(t: Topology, id: Id, v: Device)
    ensures TargetError(t, id, v).None? <==> Free(t, {id}, v.room, v.name, v.site, v.at)
  {
    if TargetError(t, id, v).None? {
      forall o | o in t.devices && o !in {id} && t.devices[o].enabled
        ensures !(t.devices[o].room == v.room && Lower(t.devices[o].name) == Lower(v.name))
        ensures !(t.devices[o].site == v.site && t.devices[o].at == v.at)
      {
        assert !SameName(t.devices[o], v.room, v.name) && !SameAddress(t.devices[o], v.site, v.at);
      }
    }
    if Free(t, {id}, v.room, v.name, v.site, v.at) {
      var i :| 0 <= i < |t.rooms| && t.rooms[i].id == v.room;
      assert HasRoom(t, v.room);
    }
  }

  // ----- create, delete, restore ------------------------------------------

  // The site asked for, or the only live one.
  predicate Chosen(t: Topology, site: Option<Id>, s: Id) {
    && s in t.sites && !t.sites[s].retired
    && (site.Some? ==> s == site.value)
    && (site.None? ==> forall x :: x in t.sites && !t.sites[x].retired ==> x == s)
  }

  predicate CreateAllowed(t: Topology, name: string, room: Id, site: Option<Id>, at: Endpoint, s: Id) {
    Plausible(name, at) && Chosen(t, site, s) && Free(t, {}, room, name, s, at) && |EnabledIds(t)| < t.capacity
  }

  ghost predicate Created(t: Topology, u: Topology, id: Id, name: string, room: Id, site: Option<Id>, at: Endpoint,
                          s: Id, now: nat) {
    CreateAllowed(t, name, room, site, at, s) && Wrote(t, u, id, Device(name, room, s, at, true, now), {s})
  }

  /** A device is created exactly when its form is plausible, there is a site to put it
      on, the place is free and there is capacity; it is then enabled as given. */
  lemma CreateOutcome(t: Topology, id: Id, name: string, room: Id, site: Option<Id>, at: Endpoint, now: nat)
    ensures var r := Create(t, id, name, room, site, at, now);
      && (r.Done? <==> exists s :: CreateAllowed(t, name, room, site, at, s))
      && (r.Done? ==> exists s :: Created(t, r.topology, id, name, room, site, at, s, now))
  {
    var r := Create(t, id, name, room, site, at, now);
    if r.Done? {
      var s := ChosenSite(t, site).site;
      ChosenIs(t, site, s);
      NoneTaken(t, room, name, s, at);
      assert CreateAllowed(t, name, room, site, at, s);
      assert Created(t, r.topology, id, name, room, site, at, s, now);
    }
    if s :| CreateAllowed(t, name, room, site, at, s) {
      ChosenIs(t, site, s);
      NoneTaken(t, room, name, s, at);
    }
  }

  lemma NoneTaken(t: Topology, room: Id, name: string, s: Id, at: Endpoint)
    ensures HasRoom(t, room) && Active(t, s) && !NameTaken(t, None, room, name) && !AddressTaken(t, None, s, at)
            <==> Free(t, {}, room, name, s, at)
  {
    if !NameTaken(t, None, room, name) && !AddressTaken(t, None, s, at) {
      forall o | o in t.devices && t.devices[o].enabled
        ensures !(t.devices[o].room == room && Lower(t.devices[o].name) == Lower(name))
        ensures !(t.devices[o].site == s && t.devices[o].at == at)
      {
        assert !SameName(t.devices[o], room, name) && !SameAddress(t.devices[o], s, at);
      }
    }
  }

  lemma ChosenIs(t: Topology, site: Option<Id>, s: Id)
    ensures Chosen(t, site, s) <==> ChosenSite(t, site) == Found(s)
  {
    var live := ActiveSites(t);
    assert site.None? && Chosen(t, site, s) ==> live == {s};
    if site.None? && |live| == 1 {
      var x :| x in live;
      OnlyElement(live, x, ChosenSite(t, site).site);
      forall y | y in live ensures y == x { OnlyElement(live, x, y); }
      forall y | y in t.sites && !t.sites[y].retired ensures y == x { assert y in live; }
    }
  }

  /** Deleting an existing device switches it off and keeps the rest of its row; deleting
      it again changes nothing. */
  lemma DeleteOutcome(t: Topology, id: Id, now: nat)
    ensures var r := Delete(t, id, now);
      && (r.Done? <==> id in t.devices)
      && (r.Done? && !t.devices[id].enabled ==> r.topology == t)
      && (r.Done? && t.devices[id].enabled ==>
            Wrote(t, r.topology, id, t.devices[id].(enabled := false, stamp := now), {t.devices[id].site}))
  {
  }

  predicate RestoreAllowed(t: Topology, id: Id) {
    id in t.devices && id !in t.links &&
    var d := t.devices[id];
    d.enabled || (Free(t, {id}, d.room, d.name, d.site, d.at) && |EnabledIds(t)| < t.capacity)
  }

  /** A device that is nobody's duplicate is switched on again exactly when its old place
      is free and there is capacity. */
  lemma RestoreOutcome(t: Topology, id: Id, now: nat)
    ensures var r := Restore(t, id, now);
      && (r.Done? <==> RestoreAllowed(t, id))
      && (r.Done? && t.devices[id].enabled ==> r.topology == t)
      && (r.Done? && !t.devices[id].enabled ==>
            Wrote(t, r.topology, id, t.devices[id].(enabled := true, stamp := now), {t.devices[id].site}))
  {
    if id in t.devices { TargetFree(t, id, t.devices[id]); }
  }

  // ----- edit -------------------------------------------------------------

  // v is d with the fields of the form, an absent field keeping d's.
  predicate Merged(d: Device, e: Edit, v: Device) {
    && v.name == e.name && v.room == e.room && v.enabled == d.enabled && v.stamp == d.stamp
    && v.site == (if e.site.Some? then e.site.value else d.site)
    && v.at.host == (if e.host.Some? then e.host.value else d.at.host)
    && v.at.port == (if e.port.Some? then e.port.value else d.at.port)
    && v.at.slave == (if e.slave.Some? then e.slave.value else d.at.slave)
  }

  predicate EditAllowed(t: Topology, admin: bool, id: Id, v: Device, expected: nat) {
    id in t.devices &&
    var d := t.devices[id];
    && d.enabled && d.stamp == expected && ((v.site == d.site && v.at == d.at) || admin)
    && Plausible(v.name, v.at) && Free(t, {id}, v.room, v.name, v.site, v.at)
  }

  /** An edit succeeds exactly on an enabled device that is still as the editor saw it,
      moved by an administrator only, to a plausible and free place; the form is then what
      is stored, and both collectors are told, unless nothing changed. */
  lemma EditOutcome(t: Topology, admin: bool, id: Id, e: Edit, expected: nat, now: nat, v: Device)
    requires id in t.devices && Merged(t.devices[id], e, v)
    ensures var r := EditDevice(t, admin, id, e, expected, now); var d := t.devices[id];
      && (r.Done? <==> EditAllowed(t, admin, id, v, expected))
      && (r.Done? && v == d ==> r.topology == t)
      && (r.Done? && v != d ==> Wrote(t, r.topology, id, v.(stamp := now), {d.site, v.site}))
  {
    assert v == Edited(t.devices[id], e);
    TargetFree(t, id, v);
  }

  // ----- rebind -----------------------------------------------------------

  // The request asks for what is already there.
  predicate Met(t: Topology, id: Id, at: Endpoint, duplicate: Option<Id>)
    requires id in t.devices
  {
    && t.devices[id].at == at
    && (duplicate.Some? ==>
          && duplicate.value in t.devices && duplicate.value != id
          && t.devices[duplicate.value].site == t.devices[id].site && t.devices[duplicate.value].at == at
          && !t.devices[duplicate.value].enabled
          && duplicate.value in t.links && t.links[duplicate.value] == id)
  }

  // Another registration of the same instrument, as the administrator saw it, that no
  // link touches yet.
  predicate Duplicates(t: Topology, id: Id, at: Endpoint, dup: Id, stamp: Option<nat>)
    requires id in t.devices
  {
    && dup != id && dup in t.devices && t.devices[dup].enabled && stamp == Some(t.devices[dup].stamp)
    && t.devices[dup].site == t.devices[id].site && t.devices[dup].at == at
    && dup !in t.links && (forall o :: o in t.links ==> t.links[o] != dup)
  }

  predicate RebindAllowed(t: Topology, admin: bool, confirmed: bool, id: Id, at: Endpoint, expected: nat,
                          duplicate: Option<Id>, duplicateStamp: Option<nat>)
  {
    admin && confirmed && id in t.devices &&
    var d := t.devices[id];
    && d.enabled && id !in t.links && Plausible(d.name, at)
    && (Met(t, id, at, duplicate)
        || (&& d.stamp == expected
            && (duplicate.Some? ==> Duplicates(t, id, at, duplicate.value, duplicateStamp))
            && Free(t, {id} + Given(duplicate), d.room, d.name, d.site, at)))
  }

  function Given(duplicate: Option<Id>): set<Id> { if duplicate.Some? then {duplicate.value} else {} }

  // The device stands at the new address, otherwise as it was; a duplicate given with it
  // is off and linked to it; no other row differs and the site's collector is told.
  ghost predicate Rebound(t: Topology, u: Topology, id: Id, at: Endpoint, duplicate: Option<Id>, now: nat)
    requires id in t.devices
  {
    && SameRooms(t, u) && SameBut(t, u, {id} + Given(duplicate)) && Rose(t, u, {t.devices[id].site})
    && id in u.devices && u.devices[id].at == at && u.devices[id].name == t.devices[id].name
    && u.devices[id].room == t.devices[id].room && u.devices[id].site == t.devices[id].site
    && u.devices[id].enabled && u.devices[id].stamp == (if at == t.devices[id].at then t.devices[id].stamp else now)
    && (duplicate.None? ==> u.links == t.links)
    && (duplicate.Some? ==>
          && duplicate.value in t.devices && duplicate.value in u.devices
          && u.devices[duplicate.value] == t.devices[duplicate.value].(enabled := false, stamp := now)
          && u.links.Keys == t.links.Keys + {duplicate.value} && u.links[duplicate.value] == id
          && (forall o :: o in t.links && o != duplicate.value ==> u.links[o] == t.links[o]))
  }

  /** A rebind succeeds exactly for an administrator who confirmed it, on an enabled device
      that is nobody's duplicate, when the request is already met or the rows are as he saw
      them, the duplicate fits and the new place is free; and then it does just that. */
  lemma RebindOutcome(t: Topology, admin: bool, confirmed: bool, id: Id, at: Endpoint, expected: nat,
                      duplicate: Option<Id>, duplicateStamp: Option<nat>, now: nat)
    ensures var r := Rebind(t, admin, confirmed, id, at, expected, duplicate, duplicateStamp, now);
      && (r.Done? <==> RebindAllowed(t, admin, confirmed, id, at, expected, duplicate, duplicateStamp))
      && (r.Done? && Met(t, id, at, duplicate) ==> r.topology == t)
      && (r.Done? && !Met(t, id, at, duplicate) ==> Rebound(t, r.topology, id, at, duplicate, now))
  {
    hide TargetError, Private, Free;
    if id in t.devices {
      if duplicate.None? {
        assert {id} + Given(duplicate) == {id};
        TargetFree(t, id, t.devices[id].(at := at));
      } else if duplicate.value in t.devices && duplicate.value != id {
        OffFree(t, id, at, duplicate.value, now);
      }
    }
  }

  // The place is checked after the duplicate is switched off.
  lemma OffFree(t: Topology, id: Id, at: Endpoint, dup: Id, now: nat)
    requires id in t.devices && dup in t.devices && dup != id
    ensures var off := t.(devices := t.devices[dup := t.devices[dup].(enabled := false, stamp := now)],
                          links := t.links[dup := id]);
      var d := t.devices[id];
      TargetError(off, id, d.(at := at)).None? <==> Free(t, {id} + {dup}, d.room, d.name, d.site, at)
  {
    var off := t.(devices := t.devices[dup := t.devices[dup].(enabled := false, stamp := now)],
                  links := t.links[dup := id]);
    TargetFree(off, id, t.devices[id].(at := at));
    OffIgnored(t, off, id, dup, t.devices[id].(at := at));
  }

  lemma OffIgnored(t: Topology, off: Topology, id: Id, dup: Id, v: Device)
    requires dup in t.devices && off.rooms == t.rooms && off.sites == t.sites
    requires exists d: Device :: !d.enabled && off.devices == t.devices[dup := d]
    ensures Free(off, {id}, v.room, v.name, v.site, v.at) <==> Free(t, {id} + {dup}, v.room, v.name, v.site, v.at)
  {
  }

  // ----- sites, purge, rooms ----------------------------------------------

  predicate Deserted(t: Topology, site: Id) {
    forall o :: o in t.devices && t.devices[o].enabled ==> t.devices[o].site != site
  }

  predicate Retired(t: Topology, u: Topology, site: Id) {
    && u == t.(sites := u.sites) && u.sites.Keys == t.sites.Keys
    && forall s :: s in t.sites ==> u.sites[s] == if s == site then Site(true, t.sites[s].revision) else t.sites[s]
  }

  /** A site is retired exactly when no enabled device is on it and its collector is
      offline; nothing else changes. */
  lemma RetireOutcome(t: Topology, site: Id, online: bool)
    ensures var r := Retire(t, site, online);
      && (r.Done? <==> site in t.sites && (t.sites[site].retired || (!online && Deserted(t, site))))
      && (r.Done? ==> Retired(t, r.topology, site))
  {
    if site in t.sites && !t.sites[site].retired {
      assert (exists id :: id in EnabledIds(t) && t.devices[id].site == site) <==> !Deserted(t, site);
    }
  }

  /** A confirmed purge leaves exactly the enabled devices, and the links between them. */
  lemma PurgeOutcome(t: Topology, confirmed: bool)
    ensures var r := Purge(t, confirmed);
      && (r.Done? <==> confirmed)
      && (r.Done? ==>
            && r.topology == t.(devices := r.topology.devices, links := r.topology.links)
            && (forall o :: o in r.topology.devices <==> o in t.devices && t.devices[o].enabled)
            && (forall o :: o in r.topology.devices ==> r.topology.devices[o] == t.devices[o])
            && (forall o :: o in r.topology.links <==>
                  o in t.links && o in r.topology.devices && t.links[o] in r.topology.devices)
            && (forall o :: o in r.topology.links ==> r.topology.links[o] == t.links[o]))
  {
  }

  predicate NewName(rooms: seq<Room>, name: string) {
    forall i :: 0 <= i < |rooms| ==> Lower(rooms[i].name) != Lower(name)
  }

  /** A room with a new name is appended while there is space, and every collector told. */
  lemma CreateRoomOutcome(t: Topology, room: Room)
    ensures var r := CreateRoom(t, room);
      && (r.Done? <==> 1 <= |room.name| <= 100 && |t.rooms| < t.maxRooms && NewName(t.rooms, room.name))
      && (r.Done? ==> r.topology == t.(rooms := t.rooms + [room], sites := r.topology.sites))
      && (r.Done? ==> Rose(t, r.topology, t.sites.Keys))
  {
  }

  // A room as the administrator saw it, in nobody's use.
  predicate Unused(t: Topology, room: Id, expectedName: string, monitored: bool) {
    && !monitored && (exists i :: 0 <= i < |t.rooms| && t.rooms[i].id == room && t.rooms[i].name == expectedName)
    && (forall o :: o in t.devices ==> t.devices[o].room != room)
  }

  /** A room goes exactly when it still has the name the administrator saw and neither a
      device, not even a deleted one, nor monitoring data refers to it. */
  lemma DeleteRoomOutcome(t: Topology, room: Id, expectedName: string, monitored: bool)
    ensures var r := DeleteRoom(t, room, expectedName, monitored);
      && (r.Done? <==> Unused(t, room, expectedName, monitored))
      && (r.Done? ==>
            && r.topology == t.(rooms := r.topology.rooms, sites := r.topology.sites)
            && Rose(t, r.topology, t.sites.Keys)
            && (forall x :: x in r.topology.rooms <==> x in t.rooms && x.id != room))
  {
    WithoutIs(t.rooms, room);
    if Unused(t, room, expectedName, monitored) {
      var i :| 0 <= i < |t.rooms| && t.rooms[i].id == room && t.rooms[i].name == expectedName;
      assert HasRoom(t, room);
    }
  }

  lemma {:induction false} WithoutIs(rooms: seq<Room>, id: Id)
    ensures forall x :: x in Without(rooms, id) <==> x in rooms && x.id != id
    decreases |rooms|
  {
    if rooms != [] {
      WithoutIs(rooms[1..], id);
      assert rooms == [rooms[0]] + rooms[1..];
    }
  }

  // ----- what a refusal says ----------------------------------------------

  // Some row the request names is not there.
  predicate Missing(t: Topology, step: T.Step) {
    match step
    case DoCreate(_, _, room, site, _, _) =>
      !HasRoom(t, room) || (site.Some? && (site.value !in t.sites || t.sites[site.value].retired))
    case DoDelete(id, _) => id !in t.devices
    case DoEdit(_, id, e, _, _) =>
      id !in t.devices || !HasRoom(t, e.room) || !Active(t, Or(e.site, t.devices[id].site))
    case DoRestore(id, _) =>
      id !in t.devices || !HasRoom(t, t.devices[id].room) || !Active(t, t.devices[id].site)
    case DoRebind(_, _, id, _, _, dup, _, _) =>
      id !in t.devices || (dup.Some? && dup.value !in t.devices)
      || !HasRoom(t, t.devices[id].room) || !Active(t, t.devices[id].site)
    case DoRetire(site, _) => site !in t.sites
    case DoDeleteRoom(room, _, _) => !HasRoom(t, room)
    case _ => false
  }

  // The request itself is wrong, or asks for more than fits.
  predicate Improper(t: Topology, step: T.Step) {
    match step
    case DoCreate(_, name, _, site, at, _) =>
      !Plausible(name, at) || (site.None? && |ActiveSites(t)| != 1) || |EnabledIds(t)| >= t.capacity
    case DoEdit(_, id, e, _, _) => id in t.devices && !Plausible(e.name, Edited(t.devices[id], e).at)
    case DoRebind(_, confirmed, id, at, _, dup, _, _) =>
      !confirmed || dup == Some(id) || (id in t.devices && !Plausible(t.devices[id].name, at))
    case DoPurge(confirmed) => !confirmed
    case DoCreateRoom(room) => !(1 <= |room.name| <= 100) || |t.rooms| >= t.maxRooms
    case _ => false
  }

  // The rows are not as the request takes them to be, or the place is taken.
  predicate Conflicting(t: Topology, step: T.Step) {
    match step
    case DoCreate(_, name, room, _, at, _) =>
      exists s :: s in t.sites && !Alone(t, {}, room, name, s, at)
    case DoEdit(_, id, e, expected, _) =>
      id in t.devices &&
      var v := Edited(t.devices[id], e);
      !t.devices[id].enabled || t.devices[id].stamp != expected || !Alone(t, {id}, v.room, v.name, v.site, v.at)
    case DoRestore(id, _) =>
      id in t.devices &&
      var d := t.devices[id];
      id in t.links || |EnabledIds(t)| >= t.capacity || !Alone(t, {id}, d.room, d.name, d.site, d.at)
    case DoRebind(_, _, id, at, expected, dup, stamp, _) =>
      id in t.devices &&
      var d := t.devices[id];
      || !d.enabled || id in t.links || d.stamp != expected || !Alone(t, {id} + Given(dup), d.room, d.name, d.site, at)
      || (dup.Some? && !Duplicates(t, id, at, dup.value, stamp))
    case DoRetire(site, online) => online || !Deserted(t, site)
    case DoCreateRoom(room) => !NewName(t.rooms, room.name)
    case DoDeleteRoom(room, expectedName, monitored) => !Unused(t, room, expectedName, monitored)
    case _ => false
  }

  // Only an administrator may touch a connection.
  predicate Forbidden(t: Topology, step: T.Step) {
    match step
    case DoEdit(admin, id, e, _, _) =>
      !admin && id in t.devices && (Edited(t.devices[id], e).at != t.devices[id].at
                                    || Edited(t.devices[id], e).site != t.devices[id].site)
    case DoRebind(admin, _, _, _, _, _, _, _) => !admin
    case _ => false
  }

  /** Every refusal says why: 403 the role, 404 a missing row, 400 an improper request,
      409 a conflict with the rows as they are. */
  lemma RefusalMeans(t: Topology, step: T.Step)
    requires T.Can(t, step)
    ensures var r := T.Tried(t, step);
      r.Refused? ==>
        || (r.status == 403 && Forbidden(t, step)) || (r.status == 404 && Missing(t, step))
        || (r.status == 400 && Improper(t, step)) || (r.status == 409 && Conflicting(t, step))
  {
  }

  // ----- no edit is lost --------------------------------------------------

  // The clock of a transaction that writes devices.
  function Clock(step: T.Step): Option<nat> {
    match step
    case DoCreate(_, _, _, _, _, now) => Some(now)
    case DoDelete(_, now) => Some(now)
    case DoEdit(_, _, _, _, now) => Some(now)
    case DoRestore(_, now) => Some(now)
    case DoRebind(_, _, _, _, _, _, _, now) => Some(now)
    case _ => None
  }

  predicate Later(steps: seq<T.Step>, stamp: nat) {
    forall i :: 0 <= i < |steps| ==> Clock(steps[i]).None? || Clock(steps[i]).value > stamp
  }

  // The device is as an editor saw it, or its row says that it is not.
  predicate Unseen(t: Topology, id: Id, seen: Device) {
    id in t.devices ==> t.devices[id] == seen || t.devices[id].stamp > seen.stamp
  }

  lemma StepTells(t: Topology, step: T.Step, id: Id, seen: Device)
    requires T.Can(t, step) && (step.DoCreate? ==> step.id != id)
    requires Clock(step).None? || Clock(step).value > seen.stamp
    requires Unseen(t, id, seen)
    ensures Unseen(T.Next(t, step), id, seen)
  {
    hide TargetError, ValidConnection, ChosenSite, NameTaken, AddressTaken, HasRoom;
  }

  predicate NotRecreated(steps: seq<T.Step>, id: Id) {
    forall i :: 0 <= i < |steps| && steps[i].DoCreate? ==> steps[i].id != id
  }

  lemma {:induction false} RunTells(t: Topology, steps: seq<T.Step>, id: Id, seen: Device)
    requires T.Runs(t, steps) && Later(steps, seen.stamp) && NotRecreated(steps, id) && Unseen(t, id, seen)
    ensures Unseen(T.Run(t, steps), id, seen)
    decreases |steps|
  {
    hide T.Can, T.Next, Unseen;
    if steps != [] {
      StepTells(t, steps[0], id, seen);
      RunTells(T.Next(t, steps[0]), steps[1..], id, seen);
    }
  }

  /** No update is lost: whatever happened since an editor read a device, his edit or
      rebind goes through only if the device's row is still exactly the one he read. */
  lemma NoLostUpdate(t: Topology, steps: seq<T.Step>, admin: bool, id: Id, e: Edit, now: nat)
    requires id in t.devices && T.Runs(t, steps) && NotRecreated(steps, id)
    requires Later(steps, t.devices[id].stamp)
    ensures var u := T.Run(t, steps); var seen := t.devices[id];
      EditDevice(u, admin, id, e, seen.stamp, now).Done? ==> id in u.devices && u.devices[id] == seen
    ensures var u := T.Run(t, steps); var seen := t.devices[id];
      forall confirmed, at, duplicate, duplicateStamp ::
        var r := Rebind(u, admin, confirmed, id, at, seen.stamp, duplicate, duplicateStamp, now);
        r.Done? && r.topology != u ==> id in u.devices && u.devices[id] == seen
  {
    hide T.Runs, T.Run;
    RunTells(t, steps, id, t.devices[id]);
  }
}
