/** One pass of the collector's upload thread against the cloud, over a network that
    may lose a request or a reply, refuse, or outlive the collector. */
module UploadPass {
  import opened UploadQueue

  datatype Net = Delivered | Lost | Refused | ReplyLost | CollectorDies

  datatype Reply = Sent | Permanent | Transient | Dead

  datatype Outcome = Uploaded(sent: nat) | Raised | Died

  // ----- what one undisturbed pass does -----------------------------------

  function PassRow(r: Row, limit: nat): Row {
    if r.content.wellFormed then Mark(r) else Blame(r, limit)
  }

  function PassRows(rows: seq<Row>, ids: set<Id>, limit: nat): (out: seq<Row>)
    ensures |out| == |rows|
    ensures forall i :: 0 <= i < |rows| ==> out[i] == if rows[i].id in ids then PassRow(rows[i], limit) else rows[i]
  {
    seq(|rows|, i requires 0 <= i < |rows| => if rows[i].id in ids then PassRow(rows[i], limit) else rows[i])
  }

  // ORDER BY sync_attempts, timestamp, id.
  predicate Before(rows: seq<Row>, i: nat, j: nat)
    requires i < |rows| && j < |rows|
  {
    || rows[i].attempts < rows[j].attempts
    || (rows[i].attempts == rows[j].attempts && rows[i].time < rows[j].time)
    || (rows[i].attempts == rows[j].attempts && rows[i].time == rows[j].time && i < j)
  }

  predicate Waiting(rows: seq<Row>, picks: seq<nat>, j: nat) {
    j < |rows| && Pending(rows[j]) && j !in picks
  }

  // LIMIT n of the pending rows in that order.
  ghost predicate Selected(rows: seq<Row>, picks: seq<nat>, n: nat) {
    && |picks| <= n
    && (forall a :: 0 <= a < |picks| ==> picks[a] < |rows| && Pending(rows[picks[a]]))
    && (forall a, b :: 0 <= a < b < |picks| ==> Before(rows, picks[a], picks[b]))
    && (forall a, j: nat :: 0 <= a < |picks| && Waiting(rows, picks, j) ==> Before(rows, picks[a], j))
    && (|picks| < n ==> forall j: nat :: !Waiting(rows, picks, j))
  }

  function Fetch(rows: seq<Row>, picks: seq<nat>): (batch: seq<Row>)
    requires forall a :: 0 <= a < |picks| ==> picks[a] < |rows|
    ensures |batch| == |picks|
  {
    seq(|picks|, a requires 0 <= a < |picks| => rows[picks[a]])
  }

  // How many items of a batch the cloud's validation accepts.
  function Valid(batch: seq<Row>): nat {
    if batch == [] then 0
    else Valid(batch[..|batch| - 1]) + if batch[|batch| - 1].content.wellFormed then 1 else 0
  }

  // A pass raises only for a failed request and dies only with the collector.
  predicate Excused(out: Outcome, nets: seq<Net>) {
    && (out.Died? ==> CollectorDies in nets)
    && (out.Raised? ==> Lost in nets || Refused in nets || ReplyLost in nets)
  }

  lemma FailedRequest(nets: seq<Net>, i: nat)
    requires i < |nets|
    ensures nets[i] == CollectorDies ==> Excused(Died, nets)
    ensures nets[i] == Lost || nets[i] == Refused || nets[i] == ReplyLost ==> Excused(Raised, nets)
  {
  }

  lemma NothingToExcuse(sent: nat, nets: seq<Net>)
    ensures Excused(Uploaded(sent), nets)
  {
  }

  lemma LaterExcused(out: Outcome, nets: seq<Net>)
    requires nets != [] && Excused(out, nets[1..])
    ensures Excused(out, nets)
  {
    assert forall net :: net in nets[1..] ==> net in nets;
  }

  lemma ValidNext(batch: seq<Row>, k: nat)
    requires k < |batch|
    ensures Valid(batch[..k + 1]) == Valid(batch[..k]) + if batch[k].content.wellFormed then 1 else 0
    ensures Valid(batch[..0]) == 0
  {
    assert batch[..k + 1][..k] == batch[..k];
  }

  lemma {:induction false} AllValid(batch: seq<Row>)
    ensures AllWellFormed(batch) ==> Valid(batch) == |batch|
    decreases |batch|
  {
    if batch != [] {
      var rest := batch[..|batch| - 1];
      assert forall i :: 0 <= i < |rest| ==> rest[i] == batch[i];
      AllValid(rest);
    }
  }

  lemma OneInvalid(batch: seq<Row>)
    requires |batch| == 1 && !AllWellFormed(batch)
    ensures Valid(batch) == 0
  {
    assert batch[..0] == [];
  }

  lemma NoneValid()
    ensures Valid([]) == 0
  {
  }

  class Cloud {
    var readings: map<Id, Content>

    /** One transaction: a batch with a malformed item is refused as a whole. */
    method IngestBatch(batch: seq<Row>) returns (accepted: bool)
      modifies this
      ensures accepted <==> AllWellFormed(batch)
      ensures readings == if accepted then Insert(old(readings), batch) else old(readings)
    {
      accepted := AllWellFormed(batch);
      if accepted {
        for k := 0 to |batch|
          invariant Insert(readings, batch[k..]) == Insert(old(readings), batch)
        {
          assert batch[k..][0] == batch[k] && batch[k..][1..] == batch[k + 1..];
          if batch[k].id !in readings {
            readings := readings[batch[k].id := batch[k].content];
          }
        }
      }
    }
  }

  class Collector {
    const limit: nat
    const batchSize: nat
    var rows: seq<Row>
    ghost var acked: set<Id>
    ghost var recorded: map<Id, Content>

    constructor (maxAttempts: int, size: int)
      ensures limit >= 1 && 1 <= batchSize <= 1000
      ensures maxAttempts >= 1 ==> limit == maxAttempts
      ensures 1 <= size <= 1000 ==> batchSize == size
      ensures rows == [] && acked == {} && recorded == map[]
    {
      limit := if maxAttempts < 1 then 1 else maxAttempts;
      batchSize := if size < 1 then 1 else if size > 1000 then 1000 else size;
      rows, acked, recorded := [], {}, map[];
    }

    ghost function State(cloud: Cloud): System
      reads this, cloud
    {
      System(rows, cloud.readings, acked, recorded)
    }

    method Least(picks: seq<nat>) returns (found: bool, j: nat)
      ensures found <==> exists k: nat :: Waiting(rows, picks, k)
      ensures found ==> Waiting(rows, picks, j)
      ensures found ==> forall k: nat :: Waiting(rows, picks, k) && k != j ==> Before(rows, j, k)
    {
      found, j := false, 0;
      for i := 0 to |rows|
        invariant found <==> exists k: nat :: k < i && Waiting(rows, picks, k)
        invariant found ==> j < i && Waiting(rows, picks, j)
        invariant found ==> forall k: nat :: k < i && Waiting(rows, picks, k) && k != j ==> Before(rows, j, k)
      {
        if Waiting(rows, picks, i) && (!found || Before(rows, i, j)) {
          found, j := true, i;
        }
      }
    }

    method PendingRows() returns (picks: seq<nat>)
      ensures Selected(rows, picks, batchSize)
    {
      picks := [];
      while |picks| < batchSize
        invariant |picks| <= batchSize
        invariant forall a :: 0 <= a < |picks| ==> picks[a] < |rows| && Pending(rows[picks[a]])
        invariant forall a, b :: 0 <= a < b < |picks| ==> Before(rows, picks[a], picks[b])
        invariant forall a, j: nat :: 0 <= a < |picks| && Waiting(rows, picks, j) ==> Before(rows, picks[a], j)
        decreases batchSize - |picks|
      {
        var found, j := Least(picks);
        if !found {
          return;
        }
        ghost var before := picks;
        picks := picks + [j];
        assert forall k: nat :: Waiting(rows, picks, k) ==> Waiting(rows, before, k) && k != j;
      }
    }

    method Upload(batch: seq<Row>, net: Net, cloud: Cloud) returns (reply: Reply, ghost steps: seq<Step>)
      requires Inv(State(cloud))
      requires forall b :: b in batch ==> b.id in recorded && b.content == recorded[b.id]
      modifies this`rows, this`acked, cloud
      ensures Inv(State(cloud)) && recorded == old(recorded)
      ensures Runs(old(State(cloud)), steps) && Run(old(State(cloud)), steps) == State(cloud)
      ensures reply.Sent? <==> net == Delivered && AllWellFormed(batch)
      ensures reply.Permanent? <==> net == Delivered && !AllWellFormed(batch)
      ensures reply.Dead? <==> net == CollectorDies
      ensures rows == if reply.Sent? then MarkAll(old(rows), Ids(batch)) else old(rows)
      ensures cloud.readings == if net != Lost && net != Refused && AllWellFormed(batch)
                                then Insert(old(cloud.readings), batch) else old(cloud.readings)
    {
      steps := [];
      ghost var start := State(cloud);
      if net == Lost || net == Refused {
        return Transient, steps;
      }
      var accepted := cloud.IngestBatch(batch);
      if !accepted {
        reply := if net == Delivered then Permanent else if net == CollectorDies then Dead else Transient;
        return;
      }
      acked := acked + Ids(batch);
      steps := [Ingest(batch)];
      ghost var committed := State(cloud);
      assert committed == Next(start, Ingest(batch)) && Run(committed, []) == committed;
      StepKeepsInv(start, Ingest(batch));
      if net != Delivered {
        reply := if net == CollectorDies then Dead else Transient;
        return;
      }
      rows := MarkAll(rows, Ids(batch));
      steps := [Ingest(batch), Confirm(Ids(batch))];
      TwoSteps(start, Ingest(batch), Confirm(Ids(batch)));
      StepKeepsInv(committed, Confirm(Ids(batch)));
      reply := Sent;
    }

    method RecordFailure(ids: set<Id>, cloud: Cloud) returns (ghost steps: seq<Step>)
      requires Inv(State(cloud))
      modifies this`rows
      ensures Inv(State(cloud))
      ensures rows == BlameAll(old(rows), ids, limit)
      ensures Runs(old(State(cloud)), steps) && Run(old(State(cloud)), steps) == State(cloud)
    {
      ghost var start := State(cloud);
      rows := BlameAll(rows, ids, limit);
      steps := [Reject(ids, limit)];
      assert State(cloud) == Next(start, Reject(ids, limit)) && Run(State(cloud), []) == State(cloud);
      StepKeepsInv(start, Reject(ids, limit));
    }

    /** One item of a batch that was refused as a whole. */
    method UploadOne(row: Row, net: Net, cloud: Cloud) returns (reply: Reply, ghost steps: seq<Step>)
      requires Inv(State(cloud)) && row.id in recorded && row.content == recorded[row.id]
      modifies this`rows, this`acked, cloud
      ensures Inv(State(cloud)) && recorded == old(recorded)
      ensures Runs(old(State(cloud)), steps) && Run(old(State(cloud)), steps) == State(cloud)
      ensures reply.Sent? <==> net == Delivered && row.content.wellFormed
      ensures reply.Permanent? <==> net == Delivered && !row.content.wellFormed
      ensures reply.Dead? <==> net == CollectorDies
      ensures rows == if reply.Sent? then MarkAll(old(rows), {row.id})
                      else if reply.Permanent? then BlameAll(old(rows), {row.id}, limit) else old(rows)
    {
      reply, steps := Upload([row], net, cloud);
      assert Ids([row]) == {row.id};
      assert AllWellFormed([row]) <==> row.content.wellFormed by { assert [row][0] == row; }
      if reply.Permanent? {
        ghost var mid := State(cloud);
        ghost var more := RecordFailure({row.id}, cloud);
        RunJoin(old(State(cloud)), steps, more);
        steps := steps + more;
      }
    }

    /** The items of a refused batch, one request each, until one fails transiently. */
    method OneByOne(picks: seq<nat>, batch: seq<Row>, nets: seq<Net>, cloud: Cloud)
      returns (out: Outcome, ghost done: nat, ghost steps: seq<Step>)
      requires Inv(State(cloud)) && Selected(rows, picks, batchSize) && |nets| >= batchSize
      requires batch == Fetch(rows, picks)
      modifies this`rows, this`acked, cloud
      ensures Inv(State(cloud)) && recorded == old(recorded)
      ensures Runs(old(State(cloud)), steps) && Run(old(State(cloud)), steps) == State(cloud)
      ensures done <= |picks| && rows == PassRows(old(rows), Ids(batch[..done]), limit)
      ensures out.Uploaded? ==> done == |picks| && out.sent == Valid(batch)
      ensures (forall i :: 0 <= i < |nets| ==> nets[i] == Delivered) ==> out.Uploaded?
      ensures Excused(out, nets)
    {
      hide Inv, Runs, Run, Selected, PassRow, Mark, Blame, Distinct, Ids, Valid, Excused;
      ghost var start := State(cloud);
      AtStart(start);
      SelectedFacts(rows, picks, batchSize);
      steps, done := [], 0;
      var sent := 0;
      NoneYet(rows, limit);
      NoneValid();
      assert batch[..0] == [];
      for k := 0 to |batch|
        invariant Inv(State(cloud)) && recorded == old(recorded)
        invariant Runs(start, steps) && Run(start, steps) == State(cloud)
        invariant rows == PassRows(old(rows), Ids(batch[..k]), limit)
        invariant sent == Valid(batch[..k])
      {
        ValidNext(batch, k);
        FailedRequest(nets, k);
        assert batch[k] in old(rows);
        done := k;
        var reply;
        ghost var more;
        reply, more := UploadOne(batch[k], nets[k], cloud);
        RunJoin(start, steps, more);
        steps := steps + more;
        if reply.Transient? {
          return Raised, done, steps;
        }
        if reply.Dead? {
          return Died, done, steps;
        }
        OneMore(old(rows), picks, k, limit, batchSize);
        if reply.Sent? {
          sent := sent + 1;
        }
      }
      assert batch[..|batch|] == batch;
      NothingToExcuse(sent, nets);
      out, done := Uploaded(sent), |picks|;
    }

    /** A refused batch of one is blamed without a second request. */
    method RefusedAlone(picks: seq<nat>, batch: seq<Row>, cloud: Cloud) returns (ghost steps: seq<Step>)
      requires Inv(State(cloud)) && Selected(rows, picks, batchSize)
      requires batch == Fetch(rows, picks) && |batch| == 1 && !AllWellFormed(batch)
      modifies this`rows
      ensures Inv(State(cloud))
      ensures Runs(old(State(cloud)), steps) && Run(old(State(cloud)), steps) == State(cloud)
      ensures rows == PassRows(old(rows), Ids(batch[..1]), limit)
    {
      OneMore(rows, picks, 0, limit, batchSize);
      NoneYet(rows, limit);
      assert batch[..0] == [] && !batch[0].content.wellFormed;
      steps := RecordFailure({batch[0].id}, cloud);
    }

    /** The pass. Whatever the network does it is a run of the queue's steps, and the
        rows it dealt with are a prefix of the batch: of those each well-formed row is
        synced and each malformed one gained one attempt, and nothing else changed.
        When every request is delivered the prefix is the whole batch. */
    method SyncOnce(nets: seq<Net>, cloud: Cloud)
      returns (out: Outcome, picks: seq<nat>, ghost done: nat, ghost steps: seq<Step>)
      requires Inv(State(cloud)) && |nets| > batchSize
      modifies this`rows, this`acked, cloud
      ensures Inv(State(cloud)) && recorded == old(recorded)
      ensures Runs(old(State(cloud)), steps) && Run(old(State(cloud)), steps) == State(cloud)
      ensures Selected(old(rows), picks, batchSize)
      ensures done <= |picks| && rows == PassRows(old(rows), Ids(Fetch(old(rows), picks)[..done]), limit)
      ensures out.Uploaded? ==> done == |picks| && out.sent == Valid(Fetch(old(rows), picks))
      ensures Excused(out, nets)
      ensures nets[0] != Delivered ==> done == 0
      ensures (forall i :: 0 <= i < |nets| ==> nets[i] == Delivered) ==> out.Uploaded?
    {
      hide Inv, Runs, Run, Selected, PassRow, Mark, Blame, Distinct, Ids, Fetch, AllWellFormed, Insert, Valid, Excused;
      FailedRequest(nets, 0);
      ghost var start := State(cloud);
      AtStart(start);
      steps, done := [], 0;
      picks := PendingRows();
      SelectedFacts(rows, picks, batchSize);
      var batch := Fetch(rows, picks);
      NoneYet(rows, limit);
      assert batch[..0] == [];
      if batch == [] {
        NoneValid();
        NothingToExcuse(0, nets);
        return Uploaded(0), picks, done, steps;
      }
      var reply;
      reply, steps := Upload(batch, nets[0], cloud);
      match reply {
        case Sent =>
          WholeBatch(old(rows), picks, limit);
          AllValid(batch);
          NothingToExcuse(|batch|, nets);
          assert batch[..|picks|] == batch;
          return Uploaded(|batch|), picks, |picks|, steps;
        case Transient => return Raised, picks, 0, steps;
        case Dead => return Died, picks, 0, steps;
        case Permanent =>
      }
      if |batch| == 1 {
        OneInvalid(batch);
        NothingToExcuse(0, nets);
        ghost var blamed := RefusedAlone(picks, batch, cloud);
        RunJoin(start, steps, blamed);
        return Uploaded(0), picks, 1, steps + blamed;
      }
      ghost var more;
      out, done, more := OneByOne(picks, batch, nets[1..], cloud);
      LaterExcused(out, nets);
      RunJoin(start, steps, more);
      steps := steps + more;
    }
  }

  lemma AtStart(s: System)
    requires Inv(s)
    ensures Distinct(s.rows) && Runs(s, []) && Run(s, []) == s
    ensures forall b :: b in s.rows ==> b.id in s.recorded && b.content == s.recorded[b.id]
  {
  }

  lemma NoneYet(rows: seq<Row>, limit: nat)
    ensures rows == PassRows(rows, Ids([]), limit)
  {
  }

  lemma SelectedFacts(rows: seq<Row>, picks: seq<nat>, n: nat)
    requires Selected(rows, picks, n)
    ensures |picks| <= n && forall a :: 0 <= a < |picks| ==> picks[a] < |rows|
    ensures forall b :: b in Fetch(rows, picks) ==> b in rows
  {
  }

  // ----- what a pass does to the rows -------------------------------------

  lemma InBatch(rows: seq<Row>, picks: seq<nat>, i: nat)
    requires Distinct(rows) && i < |rows|
    requires forall a :: 0 <= a < |picks| ==> picks[a] < |rows|
    ensures rows[i].id in Ids(Fetch(rows, picks)) <==> i in picks
    ensures i in picks ==> rows[i] in Fetch(rows, picks)
  {
    var batch := Fetch(rows, picks);
    if rows[i].id in Ids(batch) {
      var r :| r in batch && r.id == rows[i].id;
      var a :| 0 <= a < |batch| && batch[a] == r;
      assert picks[a] == i;
    }
    if i in picks {
      var a :| 0 <= a < |picks| && picks[a] == i;
      assert batch[a] == rows[i];
    }
  }

  lemma WholeBatch(rows: seq<Row>, picks: seq<nat>, limit: nat)
    requires Distinct(rows)
    requires forall a :: 0 <= a < |picks| ==> picks[a] < |rows|
    requires AllWellFormed(Fetch(rows, picks))
    ensures MarkAll(rows, Ids(Fetch(rows, picks))) == PassRows(rows, Ids(Fetch(rows, picks)), limit)
  {
    forall i | 0 <= i < |rows| && rows[i].id in Ids(Fetch(rows, picks)) ensures rows[i].content.wellFormed {
      InBatch(rows, picks, i);
    }
  }

  lemma OneMore(rows: seq<Row>, picks: seq<nat>, k: nat, limit: nat, n: nat)
    requires Distinct(rows) && Selected(rows, picks, n) && k < |picks|
    ensures var batch := Fetch(rows, picks); var sofar := PassRows(rows, Ids(batch[..k]), limit);
      PassRows(rows, Ids(batch[..k + 1]), limit) ==
        if batch[k].content.wellFormed then MarkAll(sofar, {batch[k].id}) else BlameAll(sofar, {batch[k].id}, limit)
  {
    var batch := Fetch(rows, picks);
    assert batch[..k + 1] == batch[..k] + [batch[k]];
    assert Ids(batch[..k + 1]) == Ids(batch[..k]) + {batch[k].id};
    assert batch[..k] == Fetch(rows, picks[..k]);
    assert picks[k] !in picks[..k];
    InBatch(rows, picks[..k], picks[k]);
    forall i | 0 <= i < |rows| && rows[i].id == batch[k].id ensures i == picks[k] {
    }
  }

  // ----- quarantine and drainage ------------------------------------------

  predicate Counted(rows: seq<Row>, limit: nat) {
    forall i :: 0 <= i < |rows| && !rows[i].synced ==> (rows[i].quarantined <==> rows[i].attempts >= limit)
  }

  predicate SameLimit(steps: seq<Step>, limit: nat) {
    forall i :: 0 <= i < |steps| && steps[i].Reject? ==> steps[i].limit == limit
  }

  lemma StepKeepsCounted(s: System, step: Step, limit: nat)
    requires limit >= 1 && Counted(s.rows, limit) && Can(s, step)
    requires step.Reject? ==> step.limit == limit
    ensures Counted(Next(s, step).rows, limit)
  {
    if step.Trim? {
      PruneKeeps(s.rows, step.cutoff);
      var after := Next(s, step).rows;
      forall i | 0 <= i < |after| && !after[i].synced ensures after[i].quarantined <==> after[i].attempts >= limit {
        assert after[i] in s.rows;
      }
    }
  }

  /** Over every run with one attempt limit, lost replies, crashes and pruning included,
      an unsynced row is quarantined exactly when its attempts have reached the limit. */
  lemma {:induction false} QuarantinedIffExhausted(s: System, steps: seq<Step>, limit: nat)
    requires limit >= 1 && Counted(s.rows, limit) && Runs(s, steps) && SameLimit(steps, limit)
    ensures Counted(Run(s, steps).rows, limit)
    decreases steps
  {
    hide Next, Can, Counted;
    if steps != [] {
      assert steps[0].Reject? ==> steps[0].limit == limit;
      StepKeepsCounted(s, steps[0], limit);
      assert SameLimit(steps[1..], limit);
      QuarantinedIffExhausted(Next(s, steps[0]), steps[1..], limit);
    }
  }

  // What is left to spend: per pending row, the attempts it still has.
  function Remaining(rows: seq<Row>, limit: nat): nat {
    if rows == [] then 0
    else (if Pending(rows[0]) && rows[0].attempts < limit then limit - rows[0].attempts else 0)
         + Remaining(rows[1..], limit)
  }

  lemma {:induction false} RemainingFalls(rows: seq<Row>, ids: set<Id>, limit: nat)
    requires limit >= 1 && Counted(rows, limit)
    ensures Counted(PassRows(rows, ids, limit), limit)
    ensures Remaining(PassRows(rows, ids, limit), limit) <= Remaining(rows, limit)
    ensures (exists i :: 0 <= i < |rows| && rows[i].id in ids && Pending(rows[i])) ==>
      Remaining(PassRows(rows, ids, limit), limit) < Remaining(rows, limit)
  {
    var out := PassRows(rows, ids, limit);
    if rows != [] {
      assert Counted(rows[1..], limit);
      RemainingFalls(rows[1..], ids, limit);
      assert out[1..] == PassRows(rows[1..], ids, limit);
      if i :| 0 <= i < |rows| && rows[i].id in ids && Pending(rows[i]) {
        assert i > 0 ==> rows[1..][i - 1] == rows[i];
      }
    }
  }

  ghost predicate Passes(trail: seq<seq<Row>>, limit: nat, n: nat) {
    forall k :: 0 <= k < |trail| - 1 ==> PassBetween(trail[k], trail[k + 1], limit, n)
  }

  // One complete pass that found something to upload.
  ghost predicate PassBetween(before: seq<Row>, after: seq<Row>, limit: nat, n: nat) {
    exists picks: seq<nat> :: Selected(before, picks, n) && picks != []
                              && after == PassRows(before, Ids(Fetch(before, picks)), limit)
  }

  lemma PassSpends(before: seq<Row>, after: seq<Row>, limit: nat, n: nat)
    requires limit >= 1 && Counted(before, limit) && PassBetween(before, after, limit, n)
    ensures Counted(after, limit) && Remaining(after, limit) < Remaining(before, limit)
  {
    var picks: seq<nat> :| Selected(before, picks, n) && picks != []
                           && after == PassRows(before, Ids(Fetch(before, picks)), limit);
    var batch := Fetch(before, picks);
    assert batch[0] in batch && batch[0] == before[picks[0]] && Pending(before[picks[0]]);
    RemainingFalls(before, Ids(batch), limit);
  }

  /** Delivered passes cannot go on finding work: their number is bounded by the
      attempts the pending rows have left. */
  lemma {:induction false} QueueEmpties(trail: seq<seq<Row>>, limit: nat, n: nat)
    requires |trail| >= 1 && limit >= 1 && Counted(trail[0], limit) && Passes(trail, limit, n)
    ensures |trail| - 1 <= Remaining(trail[0], limit)
    decreases |trail|
  {
    hide PassBetween, Counted, Remaining;
    if |trail| > 1 {
      assert PassBetween(trail[0], trail[0 + 1], limit, n);
      PassSpends(trail[0], trail[1], limit, n);
      forall k | 0 <= k < |trail[1..]| - 1 ensures PassBetween(trail[1..][k], trail[1..][k + 1], limit, n) {
        assert PassBetween(trail[k + 1], trail[k + 1 + 1], limit, n);
      }
      QueueEmpties(trail[1..], limit, n);
    }
  }

  /** A pass that finds nothing means every uploadable row is synced or has used up its
      attempts. */
  lemma NothingWaits(rows: seq<Row>, limit: nat, n: nat, i: nat)
    requires n >= 1 && Counted(rows, limit) && Selected(rows, [], n) && i < |rows| && rows[i].uploadable
    ensures rows[i].synced || rows[i].attempts >= limit
  {
    assert !Waiting(rows, [], i);
  }

  lemma TwoSteps(s: System, a: Step, b: Step)
    requires Can(s, a) && Can(Next(s, a), b)
    ensures Runs(s, [a, b]) && Run(s, [a, b]) == Next(Next(s, a), b)
  {
    hide Next, Can;
    assert [a, b][1..] == [b] && [b][1..] == [];
    assert Runs(Next(s, a), [b]) && Run(Next(s, a), [b]) == Next(Next(s, a), b);
  }

  // A reading of a real device that is still to be uploaded.
  predicate Owed(r: Row) { r.uploadable && !r.synced && !r.quarantined }

  /** A pass takes rows still owed, each of them before any it leaves: fewer attempts
      first, then older ones, then lower ids; and it leaves none while it has room. */
  lemma FewestFirst(rows: seq<Row>, picks: seq<nat>, n: nat, j: nat)
    requires Selected(rows, picks, n) && j < |rows| && Owed(rows[j]) && j !in picks
    ensures |picks| == n
    ensures forall a :: 0 <= a < |picks| ==> picks[a] < |rows| && Owed(rows[picks[a]])
    ensures forall a :: 0 <= a < |picks| ==> rows[picks[a]].attempts <= rows[j].attempts
    ensures forall a :: 0 <= a < |picks| && rows[picks[a]].attempts == rows[j].attempts ==>
      rows[picks[a]].time < rows[j].time || (rows[picks[a]].time == rows[j].time && picks[a] < j)
  {
    assert Waiting(rows, picks, j);
  }
}
