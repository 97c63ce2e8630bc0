/** Readings on their way from a collector to the cloud: the local queue, the
    idempotent ingest, lost requests and replies, process death between the cloud's
    commit and the local mark, quarantine and pruning. */
module UploadQueue {
  type Id = nat

  // well-formed contents are the ones the cloud's validation accepts.
  datatype Content = Content(value: nat, wellFormed: bool)

  // uploadable: from a real device of this customer and site, with a room and a device.
  datatype Row = Row(id: Id, time: real, content: Content, uploadable: bool,
                     synced: bool, attempts: nat, quarantined: bool)

  predicate Pending(r: Row) { r.uploadable && !r.synced && !r.quarantined }

  // ----- updates by record id ---------------------------------------------

  function Mark(r: Row): Row { r.(synced := true, quarantined := false) }

  function Blame(r: Row, limit: nat): Row {
    r.(attempts := r.attempts + 1, quarantined := r.quarantined || r.attempts + 1 >= limit)
  }

  function MarkAll(rows: seq<Row>, ids: set<Id>): (out: seq<Row>)
    ensures |out| == |rows|
    ensures forall i :: 0 <= i < |rows| ==> out[i] == if rows[i].id in ids then Mark(rows[i]) else rows[i]
  {
    seq(|rows|, i requires 0 <= i < |rows| => if rows[i].id in ids then Mark(rows[i]) else rows[i])
  }

  function BlameAll(rows: seq<Row>, ids: set<Id>, limit: nat): (out: seq<Row>)
    ensures |out| == |rows|
    ensures forall i :: 0 <= i < |rows| ==> out[i] == if rows[i].id in ids then Blame(rows[i], limit) else rows[i]
  {
    seq(|rows|, i requires 0 <= i < |rows| => if rows[i].id in ids then Blame(rows[i], limit) else rows[i])
  }

  function Prune(rows: seq<Row>, cutoff: real): seq<Row> {
    if rows == [] then []
    else if rows[0].time < cutoff && rows[0].synced then Prune(rows[1..], cutoff)
    else [rows[0]] + Prune(rows[1..], cutoff)
  }

  function Ids(batch: seq<Row>): set<Id> { set r | r in batch :: r.id }

  // INSERT ... ON CONFLICT(record_uuid) DO NOTHING for a whole batch.
  function Insert(cloud: map<Id, Content>, batch: seq<Row>): map<Id, Content>
    decreases batch
  {
    if batch == [] then cloud
    else Insert(if batch[0].id in cloud then cloud else cloud[batch[0].id := batch[0].content], batch[1..])
  }

  predicate AllWellFormed(batch: seq<Row>) { forall i :: 0 <= i < |batch| ==> batch[i].content.wellFormed }

  // ----- the system and its steps -----------------------------------------

  // acked: ids some committed request carried; recorded: everything ever measured.
  datatype System = System(rows: seq<Row>, cloud: map<Id, Content>, acked: set<Id>, recorded: map<Id, Content>)

  datatype Step =
    | Record(row: Row)
    | Ingest(batch: seq<Row>)          // the cloud's transaction commits
    | Confirm(ids: set<Id>)            // its reply arrives and is marked locally
    | Reject(ids: set<Id>, limit: nat) // a 400 or 422 is recorded
    | Trim(cutoff: real)               // local pruning
    | Others(id: Id, content: Content) // another collector's reading

  predicate Can(s: System, step: Step) {
    match step
    case Record(r) => r.id !in s.recorded && r.id !in s.cloud && !r.synced && !r.quarantined && r.attempts == 0
    case Ingest(batch) => forall b :: b in batch ==> b.id in s.recorded && b.content == s.recorded[b.id]
    case Confirm(ids) => ids <= s.acked
    case Reject(_, _) => true
    case Trim(_) => true
    case Others(id, _) => id !in s.recorded && id !in s.cloud
  }

  function Next(s: System, step: Step): System
    requires Can(s, step)
  {
    match step
    case Record(r) => s.(rows := s.rows + [r], recorded := s.recorded[r.id := r.content])
    case Ingest(batch) => s.(cloud := Insert(s.cloud, batch), acked := s.acked + Ids(batch))
    case Confirm(ids) => s.(rows := MarkAll(s.rows, ids))
    case Reject(ids, limit) => s.(rows := BlameAll(s.rows, ids, limit))
    case Trim(cutoff) => s.(rows := Prune(s.rows, cutoff))
    case Others(id, content) => s.(cloud := s.cloud[id := content])
  }

  predicate Runs(s: System, steps: seq<Step>)
    decreases steps
  {
    steps == [] || (Can(s, steps[0]) && Runs(Next(s, steps[0]), steps[1..]))
  }

  function Run(s: System, steps: seq<Step>): System
    requires Runs(s, steps)
    decreases steps
  {
    if steps == [] then s else Run(Next(s, steps[0]), steps[1..])
  }

  lemma {:induction false} RunJoin(s: System, a: seq<Step>, b: seq<Step>)
    requires Runs(s, a) && Runs(Run(s, a), b)
    ensures Runs(s, a + b) && Run(s, a + b) == Run(Run(s, a), b)
    decreases a
  {
    hide Next, Can;
    if a == [] {
      assert a + b == b;
    } else {
      assert (a + b)[0] == a[0] && (a + b)[1..] == a[1..] + b;
      RunJoin(Next(s, a[0]), a[1..], b);
    }
  }

  // ----- the invariant ----------------------------------------------------

  predicate Stored(rows: seq<Row>, id: Id, content: Content) {
    exists i :: 0 <= i < |rows| && rows[i].id == id && rows[i].content == content
  }

  predicate Distinct(rows: seq<Row>) {
    forall i, j :: 0 <= i < j < |rows| ==> rows[i].id != rows[j].id
  }

  ghost predicate Inv(s: System) {
    && Distinct(s.rows)
    && (forall i :: 0 <= i < |s.rows| ==> s.rows[i].id in s.recorded && s.rows[i].content == s.recorded[s.rows[i].id])
    && (forall i :: 0 <= i < |s.rows| && s.rows[i].synced ==> s.rows[i].id in s.acked)
    && (forall id :: id in s.acked ==> id in s.recorded && id in s.cloud)
    && (forall id :: id in s.recorded && id in s.cloud ==> s.cloud[id] == s.recorded[id])
    && (forall id :: id in s.recorded ==> id in s.acked || Stored(s.rows, id, s.recorded[id]))
  }

  lemma {:induction false} InsertAdds(cloud: map<Id, Content>, batch: seq<Row>)
    ensures var out := Insert(cloud, batch);
      && out.Keys == cloud.Keys + Ids(batch)
      && (forall id :: id in cloud ==> out[id] == cloud[id])
      && (forall id :: id in out && id !in cloud ==> exists b :: b in batch && b.id == id && out[id] == b.content)
    decreases batch
  {
    if batch != [] {
      var rest := if batch[0].id in cloud then cloud else cloud[batch[0].id := batch[0].content];
      InsertAdds(rest, batch[1..]);
      assert batch == [batch[0]] + batch[1..];
      assert Ids(batch) == {batch[0].id} + Ids(batch[1..]);
      var out := Insert(cloud, batch);
      forall id | id in out && id !in cloud ensures exists b :: b in batch && b.id == id && out[id] == b.content {
        if id in rest {
          assert batch[0] in batch && out[id] == batch[0].content;
        } else {
          var b :| b in batch[1..] && b.id == id && out[id] == b.content;
          assert b in batch;
        }
      }
    }
  }

  lemma {:induction false} PruneKeeps(rows: seq<Row>, cutoff: real)
    ensures forall r :: r in Prune(rows, cutoff) <==> r in rows && !(r.time < cutoff && r.synced)
    ensures Distinct(rows) ==> Distinct(Prune(rows, cutoff))
  {
    if rows != [] {
      PruneKeeps(rows[1..], cutoff);
      assert rows == [rows[0]] + rows[1..];
    }
  }

  lemma IngestKeeps(s: System, batch: seq<Row>)
    requires Inv(s) && Can(s, Ingest(batch))
    ensures Inv(Next(s, Ingest(batch)))
  {
    InsertAdds(s.cloud, batch);
  }

  lemma TrimKeeps(s: System, cutoff: real)
    requires Inv(s)
    ensures Inv(Next(s, Trim(cutoff)))
  {
    var t := Next(s, Trim(cutoff));
    PruneKeeps(s.rows, cutoff);
    forall i | 0 <= i < |t.rows| ensures t.rows[i].id in s.recorded && t.rows[i].content == s.recorded[t.rows[i].id]
      ensures t.rows[i].synced ==> t.rows[i].id in s.acked
    {
      assert t.rows[i] in s.rows;
    }
    forall id | id in s.recorded && id !in s.acked ensures Stored(t.rows, id, s.recorded[id]) {
      var i :| 0 <= i < |s.rows| && s.rows[i].id == id && s.rows[i].content == s.recorded[id];
      assert s.rows[i] in t.rows;
    }
  }

  lemma UpdateKeeps(s: System, rows: seq<Row>)
    requires Inv(s) && |rows| == |s.rows|
    requires forall i :: 0 <= i < |rows| ==> rows[i].id == s.rows[i].id && rows[i].content == s.rows[i].content
    requires forall i :: 0 <= i < |rows| && rows[i].synced ==> s.rows[i].synced || rows[i].id in s.acked
    ensures Inv(s.(rows := rows))
  {
    forall id | id in s.recorded && id !in s.acked ensures Stored(rows, id, s.recorded[id]) {
      var i :| 0 <= i < |s.rows| && s.rows[i].id == id && s.rows[i].content == s.recorded[id];
      assert rows[i].id == id && rows[i].content == s.recorded[id];
    }
  }

  lemma RecordKeeps(s: System, r: Row)
    requires Inv(s) && Can(s, Record(r))
    ensures Inv(Next(s, Record(r)))
  {
    var t := Next(s, Record(r));
    assert t.rows[|s.rows|] == r;
    forall id | id in t.recorded && id !in t.acked ensures Stored(t.rows, id, t.recorded[id]) {
      if id != r.id {
        var i :| 0 <= i < |s.rows| && s.rows[i].id == id && s.rows[i].content == s.recorded[id];
        assert t.rows[i] == s.rows[i];
      }
    }
  }

  /** Every step keeps the invariant: nothing measured is ever in neither place. */
  lemma StepKeepsInv(s: System, step: Step)
    requires Inv(s) && Can(s, step)
    ensures Inv(Next(s, step))
  {
    hide Prune, Insert;
    match step
    case Record(r) => RecordKeeps(s, r);
    case Ingest(batch) => IngestKeeps(s, batch);
    case Confirm(ids) => UpdateKeeps(s, MarkAll(s.rows, ids));
    case Reject(ids, limit) => UpdateKeeps(s, BlameAll(s.rows, ids, limit));
    case Trim(cutoff) => TrimKeeps(s, cutoff);
    case Others(_, _) =>
  }

  lemma {:induction false} RunKeepsInv(s: System, steps: seq<Step>)
    requires Inv(s) && Runs(s, steps)
    ensures Inv(Run(s, steps))
    decreases steps
  {
    hide Next, Can, Inv;
    if steps != [] {
      StepKeepsInv(s, steps[0]);
      RunKeepsInv(Next(s, steps[0]), steps[1..]);
    }
  }

  /** Conservation over every run: each reading ever recorded is stored locally with
      its content or in the cloud with its content; a row marked synced is in the
      cloud with its content. */
  lemma NothingLost(s: System, steps: seq<Step>, id: Id)
    requires Inv(s) && Runs(s, steps) && id in Run(s, steps).recorded
    ensures var t := Run(s, steps);
      && (Stored(t.rows, id, t.recorded[id]) || (id in t.cloud && t.cloud[id] == t.recorded[id]))
      && (forall i :: 0 <= i < |t.rows| && t.rows[i].synced ==>
            t.rows[i].id in t.cloud && t.cloud[t.rows[i].id] == t.rows[i].content)
  {
    hide Next, Can;
    RunKeepsInv(s, steps);
  }

  lemma StepKeepsCloud(s: System, step: Step, id: Id)
    requires Can(s, step)
    ensures id in s.cloud ==> id in Next(s, step).cloud && Next(s, step).cloud[id] == s.cloud[id]
    ensures id in s.recorded ==> id in Next(s, step).recorded && Next(s, step).recorded[id] == s.recorded[id]
  {
    if step.Ingest? { InsertAdds(s.cloud, step.batch); }
  }

  /** The cloud holds a record id with its first content for ever: retries, replays
      and late duplicates change nothing. */
  lemma {:induction false} FirstContentStays(s: System, steps: seq<Step>, id: Id)
    requires Runs(s, steps) && id in s.cloud
    ensures id in Run(s, steps).cloud && Run(s, steps).cloud[id] == s.cloud[id]
    decreases steps
  {
    hide Next, Can;
    if steps != [] {
      StepKeepsCloud(s, steps[0], id);
      FirstContentStays(Next(s, steps[0]), steps[1..], id);
    }
  }

  // What the record itself says stays.
  predicate SameRecord(r: Row, u: Row) {
    u.id == r.id && u.time == r.time && u.content == r.content && u.uploadable == r.uploadable
  }

  /** A confirmed row is synced and out of quarantine; a blamed one has one attempt more
      and is quarantined once those reach the limit. No other row is touched. */
  lemma MarksAndBlames(rows: seq<Row>, ids: set<Id>, limit: nat, i: nat)
    requires i < |rows|
    ensures var r, u := rows[i], MarkAll(rows, ids)[i];
      && SameRecord(r, u) && u.attempts == r.attempts && (r.id !in ids ==> u == r)
      && (r.id in ids ==> u.synced && !u.quarantined)
    ensures var r, u := rows[i], BlameAll(rows, ids, limit)[i];
      && SameRecord(r, u) && u.synced == r.synced && (r.id !in ids ==> u == r)
      && (r.id in ids ==> u.attempts == r.attempts + 1)
      && (r.id in ids ==> (u.quarantined <==> r.quarantined || r.attempts + 1 >= limit))
  {
  }
}
