/** The tables of one customer, and the methods that run the topology transactions on
    them in place. */
module TopologyDatabase {
  import opened Common
  import opened Topology
  import opened TopologyOutcomes

  class Database {
    const capacity: nat
    const maxRooms: nat
    var rooms: seq<Room>
    var sites: map<Id, Site>
    var devices: map<Id, Device>
    var links: map<Id, Id>

    function Now(): Topology
      reads this
    {
      Topology(capacity, maxRooms, rooms, sites, devices, links)
    }

    // What a transaction leaves: its effect, or nothing when it was refused.
    ghost predicate Leaves(was: Topology, r: Result, status: nat)
      reads this
    {
      match r
      case Done(t) => status == 200 && Now() == t
      case Refused(code) => status == code && Now() == was
    }

    method CreateDevice(id: Id, name: string, room: Id, site: Option<Id>, at: Endpoint, now: nat) returns (status: nat)
      modifies this
      ensures Leaves(old(Now()), Create(old(Now()), id, name, room, site, at, now), status)
      ensures status == 200 <==> exists s :: CreateAllowed(old(Now()), name, room, site, at, s)
      ensures status == 200 ==> exists s :: Created(old(Now()), Now(), id, name, room, site, at, s, now)
    {
      CreateOutcome(Now(), id, name, room, site, at, now);
      if !ValidConnection(name, at) {
        return 400;
      }
      if !HasRoom(Now(), room) {
        return 404;
      }
      var s: Id;
      if site.Some? {
        s := site.value;
        if !Active(Now(), s) {
          return 404;
        }
      } else {
        var active := ActiveSites(Now());
        if |active| != 1 {
          return 400;
        }
        assert active != {};
        s :| s in active;
        OnlyElement(active, s, ChosenSite(Now(), None).site);
      }
      if NameTaken(Now(), None, room, name) || AddressTaken(Now(), None, s, at) {
        return 409;
      }
      if |EnabledIds(Now())| >= capacity {
        return 400;
      }
      devices := devices[id := Device(name, room, s, at, true, now)];
      sites := Bump(sites, {s});
      status := 200;
    }

    method DeleteDevice(id: Id, now: nat) returns (status: nat)
      modifies this
      ensures Leaves(old(Now()), Delete(old(Now()), id, now), status)
      ensures status == 200 <==> id in old(devices)
      ensures status == 200 && !old(devices)[id].enabled ==> Now() == old(Now())
      ensures status == 200 && old(devices)[id].enabled ==>
        var d := old(devices)[id]; Wrote(old(Now()), Now(), id, d.(enabled := false, stamp := now), {d.site})
    {
      DeleteOutcome(Now(), id, now);
      if id !in devices {
        return 404;
      }
      if devices[id].enabled {
        devices := devices[id := devices[id].(enabled := false, stamp := now)];
        sites := Bump(sites, {devices[id].site});
      }
      status := 200;
    }

    method Edit(admin: bool, id: Id, e: Edit, expected: nat, now: nat) returns (status: nat)
      modifies this
      ensures Leaves(old(Now()), EditDevice(old(Now()), admin, id, e, expected, now), status)
      ensures forall v :: id in old(devices) && Merged(old(devices)[id], e, v) ==>
        (status == 200 <==> EditAllowed(old(Now()), admin, id, v, expected))
      ensures forall v :: id in old(devices) && Merged(old(devices)[id], e, v) && status == 200 ==>
        if v == old(devices)[id] then Now() == old(Now())
        else Wrote(old(Now()), Now(), id, v.(stamp := now), {old(devices)[id].site, v.site})
    {
      if id in devices { EditOutcome(Now(), admin, id, e, expected, now, Edited(devices[id], e)); }
      if id !in devices {
        return 404;
      }
      var before := devices[id];
      if !before.enabled || before.stamp != expected {
        return 409;
      }
      var values := Edited(before, e);
      if (values.site != before.site || values.at != before.at) && !admin {
        return 403;
      }
      if !ValidConnection(values.name, values.at) {
        return 400;
      }
      var error := TargetError(Now(), id, values);
      if error.Some? {
        return error.value;
      }
      if values != before {
        devices := devices[id := values.(stamp := now)];
        sites := Bump(sites, {before.site, values.site});
      }
      status := 200;
    }

    method RestoreDevice(id: Id, now: nat) returns (status: nat)
      modifies this
      ensures Leaves(old(Now()), Restore(old(Now()), id, now), status)
      ensures status == 200 <==> RestoreAllowed(old(Now()), id)
      ensures status == 200 && old(devices)[id].enabled ==> Now() == old(Now())
      ensures status == 200 && !old(devices)[id].enabled ==>
        var d := old(devices)[id]; Wrote(old(Now()), Now(), id, d.(enabled := true, stamp := now), {d.site})
    {
      RestoreOutcome(Now(), id, now);
      if id !in devices {
        return 404;
      }
      if id in links {
        return 409;
      }
      if !devices[id].enabled {
        var error := TargetError(Now(), id, devices[id]);
        if error.Some? {
          return error.value;
        }
        if |EnabledIds(Now())| >= capacity {
          return 409;
        }
        devices := devices[id := devices[id].(enabled := true, stamp := now)];
        sites := Bump(sites, {devices[id].site});
      }
      status := 200;
    }

    /** The duplicate is switched off before the target is validated against the other
        devices; a refusal there takes both writes back. */
    method RebindDevice(admin: bool, confirmed: bool, id: Id, at: Endpoint, expected: nat,
                        duplicate: Option<Id>, duplicateStamp: Option<nat>, now: nat) returns (status: nat)
      modifies this
      ensures var r := Rebind(old(Now()), admin, confirmed, id, at, expected, duplicate, duplicateStamp, now);
        Leaves(old(Now()), r, status)
      ensures status == 200 <==>
        RebindAllowed(old(Now()), admin, confirmed, id, at, expected, duplicate, duplicateStamp)
      ensures status == 200 && Met(old(Now()), id, at, duplicate) ==> Now() == old(Now())
      ensures status == 200 && !Met(old(Now()), id, at, duplicate) ==>
        Rebound(old(Now()), Now(), id, at, duplicate, now)
    {
      RebindOutcome(Now(), admin, confirmed, id, at, expected, duplicate, duplicateStamp, now);
      if !admin {
        return 403;
      }
      if !confirmed {
        return 400;
      }
      if id !in devices {
        return 404;
      }
      var before := devices[id];
      if !before.enabled || id in links {
        return 409;
      }
      if !ValidConnection(before.name, at) {
        return 400;
      }
      if duplicate.Some? {
        if duplicate.value == id {
          return 400;
        }
        if duplicate.value !in devices {
          return 404;
        }
        var other := devices[duplicate.value];
        if other.site != before.site || other.at != at {
          return 409;
        }
        if duplicate.value in links && links[duplicate.value] == id && !other.enabled && before.at == at {
          return 200;
        }
        if duplicate.value in links || duplicate.value in links.Values {
          return 409;
        }
        if !other.enabled || Some(other.stamp) != duplicateStamp {
          return 409;
        }
      } else if before.at == at {
        return 200;
      }
      if before.stamp != expected {
        return 409;
      }
      var savedDevices, savedLinks := devices, links;
      if duplicate.Some? {
        devices := devices[duplicate.value := devices[duplicate.value].(enabled := false, stamp := now)];
        links := links[duplicate.value := id];
      }
      var error := TargetError(Now(), id, before.(at := at));
      if error.Some? {
        devices, links := savedDevices, savedLinks;
        return error.value;
      }
      if before.at != at {
        devices := devices[id := before.(at := at, stamp := now)];
      }
      sites := Bump(sites, {before.site});
      status := 200;
    }

    method RetireSite(site: Id, online: bool) returns (status: nat)
      modifies this
      ensures Leaves(old(Now()), Retire(old(Now()), site, online), status)
      ensures status == 200 ==> Retired(old(Now()), Now(), site)
    {
      RetireOutcome(Now(), site, online);
      if site !in sites {
        return 404;
      }
      if sites[site].retired {
        return 200;
      }
      if exists id :: id in EnabledIds(Now()) && devices[id].site == site {
        return 409;
      }
      if online {
        return 409;
      }
      sites := sites[site := sites[site].(retired := true)];
      status := 200;
    }

    /** The links go before the devices they point to. */
    method PurgeRetired(confirmed: bool) returns (status: nat)
      modifies this
      ensures Leaves(old(Now()), Purge(old(Now()), confirmed), status)
    {
      if !confirmed {
        return 400;
      }
      var keep := EnabledIds(Now());
      links := map id | id in links && id in keep && links[id] in keep :: links[id];
      devices := map id | id in devices && id in keep :: devices[id];
      status := 200;
    }

    method CreateCleanroom(room: Room) returns (status: nat)
      modifies this
      ensures Leaves(old(Now()), CreateRoom(old(Now()), room), status)
    {
      if !(1 <= |room.name| <= 100) {
        return 400;
      }
      if exists i :: 0 <= i < |rooms| && Lower(rooms[i].name) == Lower(room.name) {
        return 409;
      }
      if |rooms| >= maxRooms {
        return 400;
      }
      rooms := rooms + [room];
      sites := Bump(sites, sites.Keys);
      status := 200;
    }

    method DeleteCleanroom(room: Id, expectedName: string, monitored: bool) returns (status: nat)
      modifies this
      ensures Leaves(old(Now()), DeleteRoom(old(Now()), room, expectedName, monitored), status)
      ensures status == 200 <==> Unused(old(Now()), room, expectedName, monitored)
      ensures status == 200 ==> forall x :: x in rooms <==> x in old(rooms) && x.id != room
    {
      DeleteRoomOutcome(Now(), room, expectedName, monitored);
      if !HasRoom(Now(), room) {
        return 404;
      }
      if !exists i :: 0 <= i < |rooms| && rooms[i].id == room && rooms[i].name == expectedName {
        return 409;
      }
      if exists id :: id in devices && devices[id].room == room {
        return 409;
      }
      if monitored {
        return 409;
      }
      rooms := Without(rooms, room);
      sites := Bump(sites, sites.Keys);
      status := 200;
    }
  }
}
