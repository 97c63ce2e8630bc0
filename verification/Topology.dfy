/** One customer's rooms, collector sites, devices and duplicate links, with the
    transactions that change them as functions of the tables. Every transaction first
    locks the customer's row, so each is one atomic step; a refusal rolls it back. */
module Topology {
  import opened Common

  type Id = nat

  datatype Endpoint = Endpoint(host: nat, port: int, slave: int)

  // limits stands for the room's whole threshold row.
  datatype Room = Room(id: Id, name: string, limits: nat)

  datatype Site = Site(retired: bool, revision: nat)

  // stamp: updated_at, compared by optimistic editors.
  datatype Device = Device(name: string, room: Id, site: Id, at: Endpoint, enabled: bool, stamp: nat)

  // rooms in display order; links from a duplicate to the registration kept for it.
  datatype Topology = Topology(capacity: nat, maxRooms: nat, rooms: seq<Room>, sites: map<Id, Site>,
                               devices: map<Id, Device>, links: map<Id, Id>)

  // Refused carries the HTTP status.
  datatype Result = Done(topology: Topology) | Refused(status: nat)

  // ----- validation -------------------------------------------------------

  predicate Private(host: nat) {
    host / 0x100_0000 == 10 || host / 0x10_0000 == 172 * 16 + 1 || host / 0x1_0000 == 192 * 256 + 168
  }

  predicate ValidConnection(name: string, at: Endpoint) {
    1 <= |name| <= 100 && Private(at.host) && 1 <= at.port <= 65535 && 1 <= at.slave <= 247
  }

  predicate HasRoom(t: Topology, room: Id) { exists i :: 0 <= i < |t.rooms| && t.rooms[i].id == room }

  predicate Active(t: Topology, site: Id) { site in t.sites && !t.sites[site].retired }

  predicate SameName(d: Device, room: Id, name: string) { d.enabled && d.room == room && Lower(d.name) == Lower(name) }

  predicate SameAddress(d: Device, site: Id, at: Endpoint) { d.enabled && d.site == site && d.at == at }

  predicate NameTaken(t: Topology, but: Option<Id>, room: Id, name: string) {
    exists id :: id in t.devices && but != Some(id) && SameName(t.devices[id], room, name)
  }

  predicate AddressTaken(t: Topology, but: Option<Id>, site: Id, at: Endpoint) {
    exists id :: id in t.devices && but != Some(id) && SameAddress(t.devices[id], site, at)
  }

  // The status validate_target raises for a device about to look like v, if any.
  function TargetError(t: Topology, id: Id, v: Device): Option<nat> {
    if !HasRoom(t, v.room) || !Active(t, v.site) then Some(404)
    else if NameTaken(t, Some(id), v.room, v.name) || AddressTaken(t, Some(id), v.site, v.at) then Some(409)
    else None
  }

  function EnabledIds(t: Topology): set<Id> { set id | id in t.devices && t.devices[id].enabled }

  function ActiveSites(t: Topology): set<Id> { set s | s in t.sites && !t.sites[s].retired }

  function Bump(sites: map<Id, Site>, ids: set<Id>): map<Id, Site> {
    map s | s in sites :: if s in ids then sites[s].(revision := sites[s].revision + 1) else sites[s]
  }

  function Put(t: Topology, id: Id, d: Device, bumped: set<Id>): Topology {
    t.(devices := t.devices[id := d], sites := Bump(t.sites, bumped))
  }

  // ----- the transactions -------------------------------------------------

  datatype SiteChoice = Found(site: Id) | Missing(status: nat)

  ghost function ChosenSite(t: Topology, site: Option<Id>): SiteChoice {
    match site
    case Some(s) => if Active(t, s) then Found(s) else Missing(404)
    case None =>
      if |ActiveSites(t)| != 1 then Missing(400)
      else
        assert ActiveSites(t) != {};
        var s :| s in ActiveSites(t); Found(s)
  }

  ghost function Create(t: Topology, id: Id, name: string, room: Id, site: Option<Id>, at: Endpoint, now: nat): Result {
    if !ValidConnection(name, at) then Refused(400)
    else if !HasRoom(t, room) then Refused(404)
    else
      match ChosenSite(t, site)
      case Missing(status) => Refused(status)
      case Found(s) =>
        if NameTaken(t, None, room, name) || AddressTaken(t, None, s, at) then Refused(409)
        else if |EnabledIds(t)| >= t.capacity then Refused(400)
        else Done(Put(t, id, Device(name, room, s, at, true, now), {s}))
  }

  function Delete(t: Topology, id: Id, now: nat): Result {
    if id !in t.devices then Refused(404)
    else
      var d := t.devices[id];
      if d.enabled then Done(Put(t, id, d.(enabled := false, stamp := now), {d.site})) else Done(t)
  }

  datatype Edit = Edit(name: string, room: Id, site: Option<Id>, host: Option<nat>, port: Option<int>,
                       slave: Option<int>)

  function Or<T>(o: Option<T>, otherwise: T): T { if o.Some? then o.value else otherwise }

  function Edited(d: Device, e: Edit): Device {
    d.(name := e.name, room := e.room, site := Or(e.site, d.site),
       at := Endpoint(Or(e.host, d.at.host), Or(e.port, d.at.port), Or(e.slave, d.at.slave)))
  }

  function EditDevice(t: Topology, admin: bool, id: Id, e: Edit, expected: nat, now: nat): Result {
    if id !in t.devices then Refused(404)
    else
      var d := t.devices[id];
      var v := Edited(d, e);
      if !d.enabled || d.stamp != expected then Refused(409)
      else if (v.site != d.site || v.at != d.at) && !admin then Refused(403)
      else if !ValidConnection(v.name, v.at) then Refused(400)
      else if TargetError(t, id, v).Some? then Refused(TargetError(t, id, v).value)
      else if v == d then Done(t)
      else Done(Put(t, id, v.(stamp := now), {d.site, v.site}))
  }

  function Restore(t: Topology, id: Id, now: nat): Result {
    if id !in t.devices then Refused(404)
    else
      var d := t.devices[id];
      if id in t.links then Refused(409)
      else if d.enabled then Done(t)
      else if TargetError(t, id, d).Some? then Refused(TargetError(t, id, d).value)
      else if |EnabledIds(t)| >= t.capacity then Refused(409)
      else Done(Put(t, id, d.(enabled := true, stamp := now), {d.site}))
  }

  // duplicate: the registration now known to be the same instrument, with its stamp.
  function Rebind(t: Topology, admin: bool, confirmed: bool, id: Id, at: Endpoint, expected: nat,
                  duplicate: Option<Id>, duplicateStamp: Option<nat>, now: nat): Result
  {
    if !admin then Refused(403)
    else if !confirmed then Refused(400)
    else if id !in t.devices then Refused(404)
    else
      var d := t.devices[id];
      if !d.enabled || id in t.links then Refused(409)
      else if !ValidConnection(d.name, at) then Refused(400)
      else
        match duplicate
        case None =>
          if at == d.at then Done(t)
          else if d.stamp != expected then Refused(409)
          else Moved(t, t, id, at, now)
        case Some(dup) =>
          if dup == id then Refused(400)
          else if dup !in t.devices then Refused(404)
          else
            var e := t.devices[dup];
            if e.site != d.site || e.at != at then Refused(409)
            else if dup in t.links && t.links[dup] == id && !e.enabled && d.at == at then Done(t)
            else if dup in t.links || dup in t.links.Values then Refused(409)
            else if !e.enabled || Some(e.stamp) != duplicateStamp || d.stamp != expected then Refused(409)
            else
              var off := t.(devices := t.devices[dup := e.(enabled := false, stamp := now)],
                            links := t.links[dup := id]);
              Moved(t, off, id, at, now)
  }

  // The end of a rebind: u is t after the duplicate, if any, was switched off.
  function Moved(t: Topology, u: Topology, id: Id, at: Endpoint, now: nat): Result
    requires id in u.devices
  {
    var d := u.devices[id];
    var v := d.(at := at);
    if TargetError(u, id, v).Some? then Refused(TargetError(u, id, v).value)
    else if at == d.at then Done(u.(sites := Bump(u.sites, {d.site})))
    else Done(Put(u, id, v.(stamp := now), {d.site}))
  }

  function Retire(t: Topology, site: Id, online: bool): Result {
    if site !in t.sites then Refused(404)
    else if t.sites[site].retired then Done(t)
    else if exists id :: id in EnabledIds(t) && t.devices[id].site == site then Refused(409)
    else if online then Refused(409)
    else Done(t.(sites := t.sites[site := t.sites[site].(retired := true)]))
  }

  function Purge(t: Topology, confirmed: bool): Result {
    if !confirmed then Refused(400)
    else
      var keep := EnabledIds(t);
      Done(t.(devices := map id | id in keep :: t.devices[id],
              links := map id | id in t.links && id in keep && t.links[id] in keep :: t.links[id]))
  }

  function CreateRoom(t: Topology, room: Room): Result {
    if !(1 <= |room.name| <= 100) then Refused(400)
    else if exists i :: 0 <= i < |t.rooms| && Lower(t.rooms[i].name) == Lower(room.name) then Refused(409)
    else if |t.rooms| >= t.maxRooms then Refused(400)
    else Done(t.(rooms := t.rooms + [room], sites := Bump(t.sites, t.sites.Keys)))
  }

  function Without(rooms: seq<Room>, id: Id): seq<Room> {
    if rooms == [] then [] else (if rooms[0].id == id then [] else [rooms[0]]) + Without(rooms[1..], id)
  }

  // monitored: readings, live values or alarm events of the room exist.
  function DeleteRoom(t: Topology, room: Id, expectedName: string, monitored: bool): Result {
    if !HasRoom(t, room) then Refused(404)
    else if !exists i :: 0 <= i < |t.rooms| && t.rooms[i].id == room && t.rooms[i].name == expectedName
    then Refused(409)
    else if exists id :: id in t.devices && t.devices[id].room == room then Refused(409)
    else if monitored then Refused(409)
    else Done(t.(rooms := Without(t.rooms, room), sites := Bump(t.sites, t.sites.Keys)))
  }

  // A site added by an approved collector.
  function AddSite(t: Topology, site: Id): Result
    requires site !in t.sites
  {
    Done(t.(sites := t.sites[site := Site(false, 1)]))
  }

  lemma OnlyElement<T>(s: set<T>, a: T, b: T)
    requires |s| == 1 && a in s && b in s
    ensures a == b
  {
    var rest := s - {a};
    assert |rest| == 0;
  }
}
