/** Configuration revisions: what a site's collector is sent, when its revision number
    changes, and why the collector may skip a revision it has already applied. */
module Revision {
  import opened Common
  import opened Topology
  import T = TopologyRuns

  // A device as a collector applies it.
  datatype Entry = Entry(name: string, room: Id, at: Endpoint)

  datatype Snapshot = Snapshot(rooms: seq<Room>, devices: map<Id, Entry>)

  predicate Sent(t: Topology, site: Id, id: Id) {
    id in t.devices && t.devices[id].enabled && t.devices[id].site == site
  }

  function SnapshotOf(t: Topology, site: Id): Snapshot {
    Snapshot(t.rooms, map id | id in t.devices && Sent(t, site, id) ::
      Entry(t.devices[id].name, t.devices[id].room, t.devices[id].at))
  }

  // ----- every change of a snapshot bumps the revision --------------------

  // A transaction of the topology, or a saved settings form: rooms renamed, limits and
  // devices rewritten at will, and every site's revision bumped.
  datatype Change = Transaction(step: T.Step) | Settings(rooms: seq<Room>, devices: map<Id, Device>)

  predicate SameRoomIds(a: seq<Room>, b: seq<Room>) {
    |a| == |b| && forall i :: 0 <= i < |a| ==> a[i].id == b[i].id
  }

  predicate Can(t: Topology, c: Change) {
    match c
    case Transaction(step) => T.Can(t, step)
    case Settings(rooms, _) => SameRoomIds(rooms, t.rooms)
  }

  ghost function Next(t: Topology, c: Change): Topology
    requires Can(t, c)
  {
    match c
    case Transaction(step) => T.Next(t, step)
    case Settings(rooms, devices) => t.(rooms := rooms, devices := devices, sites := Bump(t.sites, t.sites.Keys))
  }

  predicate Raised(t: Topology, u: Topology, site: Id)
    requires site in t.sites
  {
    && site in u.sites && u.sites[site].revision >= t.sites[site].revision
    && (SnapshotOf(u, site) == SnapshotOf(t, site) || u.sites[site].revision > t.sites[site].revision)
  }

  predicate SameEntry(d: Device, e: Device) { d.name == e.name && d.room == e.room && d.at == e.at }

  lemma SameSnapshot(t: Topology, u: Topology, site: Id)
    requires t.rooms == u.rooms
    requires forall id :: id in t.devices || id in u.devices ==> (Sent(t, site, id) <==> Sent(u, site, id))
    requires forall id :: id in t.devices && id in u.devices && Sent(t, site, id) ==>
      SameEntry(t.devices[id], u.devices[id])
    ensures SnapshotOf(t, site) == SnapshotOf(u, site)
  {
    var a, b := SnapshotOf(t, site).devices, SnapshotOf(u, site).devices;
    forall id ensures id in a <==> id in b {
      assert id in a <==> id in t.devices && Sent(t, site, id);
      assert id in b <==> id in u.devices && Sent(u, site, id);
    }
    assert a.Keys == b.Keys;
    forall id | id in a ensures a[id] == b[id] {
    }
  }

  lemma PutRaises(t: Topology, id: Id, v: Device, bumped: set<Id>, site: Id)
    requires site in t.sites
    requires v.enabled ==> v.site in bumped
    requires id in t.devices && t.devices[id].enabled ==> t.devices[id].site in bumped
    ensures Raised(t, Put(t, id, v, bumped), site)
  {
    if site !in bumped {
      SameSnapshot(t, Put(t, id, v, bumped), site);
    }
  }

  lemma RebindRaises(t: Topology, admin: bool, confirmed: bool, id: Id, at: Endpoint, expected: nat,
                     duplicate: Option<Id>, duplicateStamp: Option<nat>, now: nat, site: Id)
    requires site in t.sites
    ensures var r := Rebind(t, admin, confirmed, id, at, expected, duplicate, duplicateStamp, now);
      r.Done? ==> Raised(t, r.topology, site)
  {
    hide TargetError, ValidConnection;
    var r := Rebind(t, admin, confirmed, id, at, expected, duplicate, duplicateStamp, now);
    if r.Done? && r.topology != t {
      var d := t.devices[id];
      if site != d.site {
        SameSnapshot(t, r.topology, site);
      }
    }
  }

  lemma PurgeRaises(t: Topology, confirmed: bool, site: Id)
    requires site in t.sites
    ensures Purge(t, confirmed).Done? ==> Raised(t, Purge(t, confirmed).topology, site)
  {
    if confirmed {
      SameSnapshot(t, Purge(t, confirmed).topology, site);
    }
  }

  lemma RetireRaises(t: Topology, retired: Id, online: bool, site: Id)
    requires site in t.sites
    ensures Retire(t, retired, online).Done? ==> Raised(t, Retire(t, retired, online).topology, site)
  {
    if Retire(t, retired, online).Done? {
      SameSnapshot(t, Retire(t, retired, online).topology, site);
    }
  }

  lemma CreateRaises(t: Topology, id: Id, name: string, room: Id, site: Option<Id>, at: Endpoint, now: nat, s: Id)
    requires s in t.sites && id !in t.devices
    ensures var r := Create(t, id, name, room, site, at, now); r.Done? ==> Raised(t, r.topology, s)
  {
    hide ValidConnection, NameTaken, AddressTaken;
    if Create(t, id, name, room, site, at, now).Done? {
      var chosen := ChosenSite(t, site).site;
      PutRaises(t, id, Device(name, room, chosen, at, true, now), {chosen}, s);
    }
  }

  /** Whatever changes the rooms, limits, devices, names or addresses a site is sent
      raises that site's revision in the same transaction; no change lowers it. */
  lemma ChangeRaises(t: Topology, c: Change, site: Id)
    requires site in t.sites && Can(t, c)
    ensures Raised(t, Next(t, c), site)
  {
    hide ValidConnection, TargetError, Create, Rebind, Purge, Retire, SnapshotOf, Put;
    if c.Transaction? {
      match c.step
      case DoCreate(id, name, room, s, at, now) => CreateRaises(t, id, name, room, s, at, now, site);
      case DoDelete(id, now) =>
        if id in t.devices {
          PutRaises(t, id, t.devices[id].(enabled := false, stamp := now), {t.devices[id].site}, site);
        }
      case DoEdit(admin, id, e, expected, now) =>
        if id in t.devices {
          var v := Edited(t.devices[id], e);
          PutRaises(t, id, v.(stamp := now), {t.devices[id].site, v.site}, site);
        }
      case DoRestore(id, now) =>
        if id in t.devices {
          PutRaises(t, id, t.devices[id].(enabled := true, stamp := now), {t.devices[id].site}, site);
        }
      case DoRebind(admin, confirmed, id, at, expected, duplicate, duplicateStamp, now) =>
        RebindRaises(t, admin, confirmed, id, at, expected, duplicate, duplicateStamp, now, site);
      case DoRetire(retired, online) => RetireRaises(t, retired, online, site);
      case DoPurge(confirmed) => PurgeRaises(t, confirmed, site);
      case DoAddSite(added) => SameSnapshot(t, AddSite(t, added).topology, site);
      case _ =>
    }
  }

  ghost predicate Runs(t: Topology, cs: seq<Change>)
    decreases |cs|
  {
    cs == [] || (Can(t, cs[0]) && Runs(Next(t, cs[0]), cs[1..]))
  }

  ghost function Run(t: Topology, cs: seq<Change>): Topology
    requires Runs(t, cs)
    decreases |cs|
  {
    if cs == [] then t else Run(Next(t, cs[0]), cs[1..])
  }

  /** Two moments of any run at which a site has the same revision agree on everything
      its collector applies. */
  lemma {:induction false} SameRevisionSameSnapshot(t: Topology, cs: seq<Change>, site: Id)
    requires site in t.sites && Runs(t, cs)
    ensures Raised(t, Run(t, cs), site)
    ensures Run(t, cs).sites[site].revision == t.sites[site].revision ==>
      SnapshotOf(Run(t, cs), site) == SnapshotOf(t, site)
    decreases |cs|
  {
    hide Next, Can, SnapshotOf;
    if cs != [] {
      ChangeRaises(t, cs[0], site);
      SameRevisionSameSnapshot(Next(t, cs[0]), cs[1..], site);
    }
  }
}
