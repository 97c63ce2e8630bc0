/** Names that keep a collector from ever applying its configuration again, for as long
    as the cloud uses them: held by a room the cloud no longer has, or passed around
    between rooms that both have. */
module ConfigBlocks {
  import opened Common
  import opened Topology
  import Revision
  import opened EdgeConfig
  import T = TopologyRuns

  // ----- what hinders an apply --------------------------------------------

  lemma {:induction false} HinderedFails(rooms: map<Id, LocalRoom>, sent: seq<Room>)
    requires Hindered(rooms, sent)
    ensures ApplyRooms(rooms, sent).None?
    decreases |sent|
  {
    var k: nat :| k < |sent| && Blocked(rooms, sent, k);
    var r :| r in rooms && HeldBy(rooms, sent, k, r);
    if !NameHeld(rooms, sent[0].id, sent[0].name) {
      var next := rooms[sent[0].id := LocalRoom(sent[0].name, sent[0].limits)];
      assert k > 0 && sent[1..][k - 1] == sent[k];
      assert sent[0].id != r;
      assert HeldBy(next, sent[1..], k - 1, r) by {
        assert forall i :: 0 <= i < k - 1 ==> sent[1..][i] == sent[i + 1];
      }
      assert Blocked(next, sent[1..], k - 1);
      HinderedFails(next, sent[1..]);
    }
  }

  // The room is not in the list, and another one has its folded name.
  predicate Taken(rooms: seq<Room>, gone: Id, name: string) {
    && (forall i :: 0 <= i < |rooms| ==> rooms[i].id != gone)
    && exists k :: 0 <= k < |rooms| && Lower(rooms[k].name) == Lower(name)
  }

  lemma TakenHinders(rooms: map<Id, LocalRoom>, gone: Id, sent: seq<Room>)
    requires gone in rooms && Taken(sent, gone, rooms[gone].name)
    ensures Hindered(rooms, sent)
  {
    var k: nat :| k < |sent| && Lower(sent[k].name) == Lower(rooms[gone].name);
    assert HeldBy(rooms, sent, k, gone);
    assert Blocked(rooms, sent, k);
  }

  // Some of these rooms are in the list, and each that is has the folded name another
  // of them holds at the collector: a swap, a longer cycle, or a chain to a gone room.
  predicate Tangled(rooms: map<Id, LocalRoom>, sent: seq<Room>, ids: set<Id>) {
    && (exists i :: 0 <= i < |sent| && sent[i].id in ids)
    && forall i :: 0 <= i < |sent| && sent[i].id in ids ==> Covets(rooms, sent[i], ids)
  }

  predicate Covets(rooms: map<Id, LocalRoom>, room: Room, ids: set<Id>) {
    exists r :: r in ids && r in rooms && r != room.id && Lower(rooms[r].name) == Lower(room.name)
  }

  lemma {:induction false} FirstOf(sent: seq<Room>, ids: set<Id>, n: nat) returns (k: nat)
    requires n < |sent| && sent[n].id in ids
    ensures k <= n && sent[k].id in ids && forall i :: 0 <= i < k ==> sent[i].id !in ids
    decreases n
  {
    if i :| 0 <= i < n && sent[i].id in ids {
      k := FirstOf(sent, ids, i);
    } else {
      k := n;
    }
  }

  /** Whatever order the rooms are upserted in, the first of a tangle finds its new name
      taken. */
  lemma TangledHinders(rooms: map<Id, LocalRoom>, sent: seq<Room>, ids: set<Id>)
    requires Tangled(rooms, sent, ids)
    ensures Hindered(rooms, sent)
  {
    var n: nat :| n < |sent| && sent[n].id in ids;
    var k := FirstOf(sent, ids, n);
    assert Covets(rooms, sent[k], ids);
    var r :| r in ids && r in rooms && r != sent[k].id && Lower(rooms[r].name) == Lower(sent[k].name);
    assert HeldBy(rooms, sent, k, r);
    assert Blocked(rooms, sent, k);
  }

  // The cloud has exchanged the names two rooms hold at the collector.
  predicate Swapped(rooms: map<Id, LocalRoom>, sent: seq<Room>, a: Id, b: Id) {
    && a in rooms && b in rooms && a != b
    && (exists i :: 0 <= i < |sent| && sent[i].id == a)
    && (forall i :: 0 <= i < |sent| && sent[i].id == a ==> Lower(sent[i].name) == Lower(rooms[b].name))
    && (forall i :: 0 <= i < |sent| && sent[i].id == b ==> Lower(sent[i].name) == Lower(rooms[a].name))
  }

  lemma SwappedTangles(rooms: map<Id, LocalRoom>, sent: seq<Room>, a: Id, b: Id)
    requires Swapped(rooms, sent, a, b)
    ensures Tangled(rooms, sent, {a, b})
  {
  }

  /** A room deleted in the cloud keeps its name at the collector: once another room is
      given that name there, no snapshot containing it can be applied. */
  lemma RecreatedNameNeverApplies(l: Local, site: Id, s: Revision.Snapshot, gone: Id)
    requires gone in l.rooms && Taken(s.rooms, gone, l.rooms[gone].name)
    ensures Apply(l, site, s).None?
  {
    TakenHinders(l.rooms, gone, s.rooms);
    HinderedFails(l.rooms, s.rooms);
  }

  // ----- for as long as it hinders ----------------------------------------

  // The collector cannot apply what the cloud has, and has no other answer in hand.
  predicate Stuck(s: System) {
    && Hindered(s.local.rooms, s.cloud.rooms)
    && (s.phase.Fetched? ==> Hindered(s.local.rooms, s.snapshot.rooms))
  }

  // The cloud's rooms satisfy p throughout the run.
  ghost predicate Throughout(s: System, site: Id, steps: seq<Step>, p: seq<Room> -> bool)
    requires Runs(s, site, steps)
    decreases |steps|
  {
    p(s.cloud.rooms) && (steps == [] || Throughout(NextStep(s, site, steps[0]), site, steps[1..], p))
  }

  lemma StuckStep(s: System, site: Id, step: Step)
    requires Stuck(s) && CanStep(s, site, step)
    requires Hindered(s.local.rooms, NextStep(s, site, step).cloud.rooms)
    ensures var t := NextStep(s, site, step); Stuck(t) && t.local == s.local && t.current == s.current
  {
    hide Hindered, ApplyRooms, Revision.Can;
    match step
    case Fetch => RoomsOf(s.cloud, site);
    case TryApply => HinderedFails(s.local.rooms, s.snapshot.rooms);
    case _ =>
  }

  lemma ThroughoutNext(s: System, site: Id, steps: seq<Step>, p: seq<Room> -> bool)
    requires Runs(s, site, steps) && Throughout(s, site, steps, p) && steps != []
    ensures var t := NextStep(s, site, steps[0]); p(t.cloud.rooms) && Throughout(t, site, steps[1..], p)
  {
  }

  /** As long as the cloud's rooms hinder it, no run of pulls, crashes and other cloud
      changes applies anything: the local tables, and the revision they stand for, stay
      what they are. */
  lemma {:induction false} BlockedForGood(s: System, site: Id, steps: seq<Step>, p: seq<Room> -> bool)
    requires Stuck(s) && Runs(s, site, steps) && Throughout(s, site, steps, p)
    requires forall rooms: seq<Room> :: p(rooms) ==> Hindered(s.local.rooms, rooms)
    ensures Run(s, site, steps).local == s.local && Run(s, site, steps).current == s.current
    decreases |steps|
  {
    hide Stuck, CanStep, NextStep, Hindered, Throughout;
    if steps != [] {
      ThroughoutNext(s, site, steps, p);
      StuckStep(s, site, steps[0]);
      BlockedForGood(NextStep(s, site, steps[0]), site, steps[1..], p);
    }
  }

  /** So a name held from a room the cloud no longer has blocks while some other room of
      the cloud bears it. */
  lemma GoneNameBlocks(s: System, site: Id, steps: seq<Step>, gone: Id, name: string)
    requires Stuck(s) && gone in s.local.rooms && s.local.rooms[gone].name == name
    requires Runs(s, site, steps) && Throughout(s, site, steps, (rooms: seq<Room>) => Taken(rooms, gone, name))
    ensures Run(s, site, steps).local == s.local && Run(s, site, steps).current == s.current
  {
    hide Stuck, Runs, Run, Throughout, Taken, Hindered;
    forall rooms: seq<Room> | Taken(rooms, gone, name) ensures Hindered(s.local.rooms, rooms) {
      TakenHinders(s.local.rooms, gone, rooms);
    }
    BlockedForGood(s, site, steps, (rooms: seq<Room>) => Taken(rooms, gone, name));
  }

  /** And a tangle of living rooms blocks until one of them is given another name. */
  lemma TangleBlocks(s: System, site: Id, steps: seq<Step>, local: map<Id, LocalRoom>, ids: set<Id>)
    requires Stuck(s) && local == s.local.rooms
    requires Runs(s, site, steps) && Throughout(s, site, steps, (rooms: seq<Room>) => Tangled(local, rooms, ids))
    ensures Run(s, site, steps).local == s.local && Run(s, site, steps).current == s.current
  {
    hide Stuck, Runs, Run, Throughout, Tangled, Hindered;
    forall rooms: seq<Room> | Tangled(local, rooms, ids) ensures Hindered(s.local.rooms, rooms) {
      TangledHinders(local, rooms, ids);
    }
    BlockedForGood(s, site, steps, (rooms: seq<Room>) => Tangled(local, rooms, ids));
  }

  lemma StuckCannotApply(s: System, site: Id)
    requires Stuck(s) && CanStep(s, site, TryApply)
    ensures Apply(s.local, site, s.snapshot).None?
  {
    HinderedFails(s.local.rooms, s.snapshot.rooms);
  }

  // ----- and it is reached ------------------------------------------------

  function CloudWith(rooms: seq<Room>, revision: nat): Topology {
    Topology(10, 10, rooms, map[1 := Site(false, revision)], map[], map[])
  }

  const OLD: Room := Room(1, "A", 0)
  const NEW: Room := Room(2, "a", 0)

  function Sending(rooms: seq<Room>): Revision.Snapshot { Revision.Snapshot(rooms, map[]) }

  // A collector before its first pull of these rooms, and after it.
  function Start(rooms: seq<Room>): System {
    System(CloudWith(rooms, 1), Local(map[], map[]), None, None, Idle, 0, Sending([]), map[1 := Sending(rooms)], None)
  }

  function Pulled(rooms: seq<Room>, local: map<Id, LocalRoom>): System {
    System(CloudWith(rooms, 1), Local(local, map[]), Some(1), Some(1), Idle, 1, Sending(rooms),
           map[1 := Sending(rooms)], Some(1))
  }

  function Pull(): seq<Step> { [Fetch, TryApply, Remember, Save] }

  lemma EmptySnapshot(rooms: seq<Room>, revision: nat)
    ensures Revision.SnapshotOf(CloudWith(rooms, revision), 1) == Sending(rooms)
  {
  }

  lemma FirstPull(rooms: seq<Room>, local: map<Id, LocalRoom>)
    requires DistinctRooms(rooms) && ApplyRooms(map[], rooms) == Some(local)
    ensures Fresh(Start(rooms), 1) && Runs(Start(rooms), 1, Pull())
    ensures Run(Start(rooms), 1, Pull()) == Pulled(rooms, local)
  {
    var s := Start(rooms);
    EmptySnapshot(rooms, 1);
    var s1 := NextStep(s, 1, Fetch);
    assert ApplyDevices(map[], 1, map[]) == map[];
    var s2 := NextStep(s1, 1, TryApply);
    var s3 := NextStep(s2, 1, Remember);
    var s4 := NextStep(s3, 1, Save);
    assert s4 == Pulled(rooms, local);
    FourSteps(s, 1, Fetch, TryApply, Remember, Save);
  }

  lemma OneStep(s: System, site: Id, step: Step)
    requires CanStep(s, site, step)
    ensures Runs(s, site, [step]) && Run(s, site, [step]) == NextStep(s, site, step)
  {
    hide CanStep, NextStep;
    assert [step][1..] == [];
    assert Run(NextStep(s, site, step), site, []) == NextStep(s, site, step);
  }

  lemma FourSteps(s: System, site: Id, a: Step, b: Step, c: Step, d: Step)
    requires CanStep(s, site, a)
    requires CanStep(NextStep(s, site, a), site, b)
    requires CanStep(NextStep(NextStep(s, site, a), site, b), site, c)
    requires CanStep(NextStep(NextStep(NextStep(s, site, a), site, b), site, c), site, d)
    ensures Runs(s, site, [a, b, c, d])
    ensures Run(s, site, [a, b, c, d]) == NextStep(NextStep(NextStep(NextStep(s, site, a), site, b), site, c), site, d)
  {
    hide CanStep, NextStep;
    var s1 := NextStep(s, site, a);
    var s2 := NextStep(s1, site, b);
    var s3 := NextStep(s2, site, c);
    assert [a, b, c, d][1..] == [b, c, d] && [b, c, d][1..] == [c, d] && [c, d][1..] == [d] && [d][1..] == [];
    OneStep(s3, site, d);
    assert Runs(s2, site, [c, d]) && Run(s2, site, [c, d]) == NextStep(s3, site, d);
    assert Runs(s1, site, [b, c, d]) && Run(s1, site, [b, c, d]) == NextStep(s3, site, d);
  }

  lemma {:induction false} RunJoin(s: System, site: Id, a: seq<Step>, b: seq<Step>)
    requires Runs(s, site, a) && Runs(Run(s, site, a), site, b)
    ensures Runs(s, site, a + b) && Run(s, site, a + b) == Run(Run(s, site, a), site, b)
    decreases |a|
  {
    hide CanStep, NextStep;
    if a == [] {
      assert a + b == b;
    } else {
      assert (a + b)[0] == a[0] && (a + b)[1..] == a[1..] + b;
      RunJoin(NextStep(s, site, a[0]), site, a[1..], b);
    }
  }

  // Delete the room in the cloud, create another under its name, pull again.
  function Recreate(): seq<Step> {
    [Cloud(Revision.Transaction(T.DoDeleteRoom(1, "A", false))),
     Cloud(Revision.Transaction(T.DoCreateRoom(NEW))), Fetch]
  }

  lemma DeletedAndRecreated()
    ensures var t, u, v := CloudWith([OLD], 1), CloudWith([], 2), CloudWith([NEW], 3);
      var x, y := Revision.Transaction(T.DoDeleteRoom(1, "A", false)), Revision.Transaction(T.DoCreateRoom(NEW));
      Revision.Can(t, x) && Revision.Next(t, x) == u && Revision.Can(u, y) && Revision.Next(u, y) == v
  {
    assert Without([OLD], 1) == [] by { assert [OLD][1..] == []; }
    assert [OLD][0].name == "A";
    assert [] + [NEW] == [NEW];
  }

  lemma SecondPull(s: System)
    requires s.cloud == CloudWith([OLD], 1) && s.phase.Idle? && s.memory == Some(1)
    requires s.local.rooms == map[1 := LocalRoom("A", 0)]
    ensures Runs(s, 1, Recreate())
    ensures var t := Run(s, 1, Recreate()); Stuck(t) && CanStep(t, 1, TryApply) && t.local == s.local
  {
    hide Revision.Can, Revision.Next, T.Can, T.Next, Lower;
    DeletedAndRecreated();
    EmptySnapshot([], 2);
    EmptySnapshot([NEW], 3);
    var x, y := Recreate()[0], Recreate()[1];
    var s1 := NextStep(s, 1, x);
    assert s1.cloud == CloudWith([], 2);
    var s2 := NextStep(s1, 1, y);
    assert s2.cloud == CloudWith([NEW], 3);
    var s3 := NextStep(s2, 1, Fetch);
    assert Recreate() == [x, y, Fetch];
    assert [x, y, Fetch][1..] == [y, Fetch] && [y, Fetch][1..] == [Fetch];
    OneStep(s2, 1, Fetch);
    assert Runs(s1, 1, [y, Fetch]) && Run(s1, 1, [y, Fetch]) == s3;
    assert Runs(s, 1, [x, y, Fetch]) && Run(s, 1, [x, y, Fetch]) == s3;
    SameFold();
    TakenHinders(s.local.rooms, 1, [NEW]);
  }

  lemma SameFold()
    ensures Taken([NEW], 1, "A")
  {
    assert Lower("a") == Lower("A");
    assert [NEW][0].name == "a";
  }

  /** A pull, a room deleted in the cloud, another created under its name, and the next
      pull has nothing it can apply: the collector is stuck. */
  lemma BlockedIsReached()
    ensures exists s: System, steps: seq<Step> ::
      Fresh(s, 1) && Runs(s, 1, steps) && Stuck(Run(s, 1, steps))
      && CanStep(Run(s, 1, steps), 1, TryApply) && Apply(Run(s, 1, steps).local, 1, Run(s, 1, steps).snapshot).None?
  {
    hide Fresh, Runs, Run, Stuck, CanStep, Apply;
    var s, m := Start([OLD]), Pulled([OLD], map[1 := LocalRoom("A", 0)]);
    OldApplies();
    FirstPull([OLD], map[1 := LocalRoom("A", 0)]);
    SecondPull(m);
    RunJoin(s, 1, Pull(), Recreate());
    var t := Run(s, 1, Pull() + Recreate());
    StuckCannotApply(t, 1);
  }

  lemma OldApplies()
    ensures DistinctRooms([OLD]) && ApplyRooms(map[], [OLD]) == Some(map[1 := LocalRoom("A", 0)])
  {
    assert [OLD][1..] == [];
    assert ApplyRooms(map[1 := LocalRoom("A", 0)], []) == Some(map[1 := LocalRoom("A", 0)]);
  }

  // Two rooms exchange their names by way of a third.

  const BOTH: seq<Room> := [Room(1, "A", 0), Room(2, "B", 0)]
  const ASIDE: seq<Room> := [Room(1, "C", 0), Room(2, "B", 0)]
  const MOVED: seq<Room> := [Room(1, "C", 0), Room(2, "A", 0)]
  const SWAPPED: seq<Room> := [Room(1, "B", 0), Room(2, "A", 0)]

  function BothLocal(): map<Id, LocalRoom> { map[1 := LocalRoom("A", 0), 2 := LocalRoom("B", 0)] }

  function Renamed(rooms: seq<Room>): Step { Cloud(Revision.Settings(rooms, map[])) }

  function Exchange(): seq<Step> { [Renamed(ASIDE), Renamed(MOVED), Renamed(SWAPPED), Fetch] }

  lemma BothApply()
    ensures DistinctRooms(BOTH) && ApplyRooms(map[], BOTH) == Some(BothLocal())
  {
    var one: map<Id, LocalRoom> := map[1 := LocalRoom("A", 0)];
    assert BOTH[1..] == [BOTH[1]] && [BOTH[1]][1..] == [];
    assert Lower("A")[0] != Lower("B")[0];
    assert !NameHeld(one, 2, "B");
    assert one[2 := LocalRoom("B", 0)] == BothLocal();
    assert ApplyRooms(BothLocal(), []) == Some(BothLocal());
    assert ApplyRooms(one, [BOTH[1]]) == Some(BothLocal());
  }

  lemma RenamesRaise(from: seq<Room>, rooms: seq<Room>, revision: nat)
    requires Revision.SameRoomIds(rooms, from)
    ensures var c := Revision.Settings(rooms, map[]);
      Revision.Can(CloudWith(from, revision), c)
      && Revision.Next(CloudWith(from, revision), c) == CloudWith(rooms, revision + 1)
  {
  }

  lemma SwapHinders()
    ensures Hindered(BothLocal(), SWAPPED)
  {
    assert SWAPPED[0] == Room(1, "B", 0) && SWAPPED[1] == Room(2, "A", 0);
    SwappedTangles(BothLocal(), SWAPPED, 1, 2);
    TangledHinders(BothLocal(), SWAPPED, {1, 2});
  }

  lemma ExchangedAndPulled(s: System)
    requires s == Pulled(BOTH, BothLocal())
    ensures Runs(s, 1, Exchange())
    ensures var t := Run(s, 1, Exchange());
      Stuck(t) && CanStep(t, 1, TryApply) && Swapped(t.local.rooms, t.cloud.rooms, 1, 2)
  {
    hide Revision.Can, Revision.Next, Hindered, Lower;
    RenamesRaise(BOTH, ASIDE, 1);
    RenamesRaise(ASIDE, MOVED, 2);
    RenamesRaise(MOVED, SWAPPED, 3);
    EmptySnapshot(SWAPPED, 4);
    var s1 := NextStep(s, 1, Renamed(ASIDE));
    assert s1.cloud == CloudWith(ASIDE, 2);
    var s2 := NextStep(s1, 1, Renamed(MOVED));
    assert s2.cloud == CloudWith(MOVED, 3);
    var s3 := NextStep(s2, 1, Renamed(SWAPPED));
    assert s3.cloud == CloudWith(SWAPPED, 4);
    FourSteps(s, 1, Renamed(ASIDE), Renamed(MOVED), Renamed(SWAPPED), Fetch);
    SwapHinders();
    assert SWAPPED[0] == Room(1, "B", 0) && SWAPPED[1] == Room(2, "A", 0);
  }

  /** A pull, then two rooms exchanging their names in the cloud by way of a third while
      the collector is away, and it is stuck. */
  lemma SwapIsReached()
    ensures exists s: System, steps: seq<Step> ::
      Fresh(s, 1) && Runs(s, 1, steps) && Stuck(Run(s, 1, steps))
      && Swapped(Run(s, 1, steps).local.rooms, Run(s, 1, steps).cloud.rooms, 1, 2)
      && CanStep(Run(s, 1, steps), 1, TryApply) && Apply(Run(s, 1, steps).local, 1, Run(s, 1, steps).snapshot).None?
  {
    hide Fresh, Runs, Run, Stuck, CanStep, Apply, Swapped;
    BothApply();
    FirstPull(BOTH, BothLocal());
    ExchangedAndPulled(Pulled(BOTH, BothLocal()));
    RunJoin(Start(BOTH), 1, Pull(), Exchange());
    StuckCannotApply(Run(Start(BOTH), 1, Pull() + Exchange()), 1);
  }
}
