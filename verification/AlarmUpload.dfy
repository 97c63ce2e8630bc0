/** Alarm events on their way to the cloud. Unlike readings they still change after
    they are first stored: the upload selects a snapshot, the cloud merges it, and the
    local rows are then marked by id whatever they have become meanwhile. */
module AlarmUpload {
  import opened Common
  import opened AlarmMachine

  type Id = nat // position in the local log, standing for the event's uuid

  // The fields the cloud keeps of an event.
  datatype Copy = Copy(startedAt: real, trigger: real, endedAt: Option<real>, peak: real)

  function CopyOf(e: Event): Copy { Copy(e.startedAt, e.trigger, e.endedAt, e.peak) }

  // ON CONFLICT DO UPDATE: the first end time stays, the peak is overwritten.
  function Merge(stored: Copy, sent: Copy): Copy {
    stored.(endedAt := if stored.endedAt.Some? then stored.endedAt else sent.endedAt, peak := sent.peak)
  }

  function Upsert(cloud: map<Id, Copy>, sent: map<Id, Copy>, ids: set<Id>): map<Id, Copy>
    requires ids <= sent.Keys
  {
    map id | id in cloud.Keys + ids ::
      if id !in ids then cloud[id] else if id in cloud then Merge(cloud[id], sent[id]) else sent[id]
  }

  function IdSet(batch: seq<Id>): set<Id> { set id | id in batch }

  class CloudEvents {
    var events: map<Id, Copy>

    /** One request: every item inserted or merged in turn. */
    method IngestAlarms(batch: seq<Id>, sent: map<Id, Copy>)
      requires forall k :: 0 <= k < |batch| ==> batch[k] in sent
      requires forall j, k :: 0 <= j < k < |batch| ==> batch[j] != batch[k]
      modifies this
      ensures events == Upsert(old(events), sent, IdSet(batch))
    {
      for k := 0 to |batch|
        invariant events == Upsert(old(events), sent, IdSet(batch[..k]))
      {
        ghost var before, after := IdSet(batch[..k]), IdSet(batch[..k + 1]);
        assert batch[..k + 1] == batch[..k] + [batch[k]];
        assert after == before + {batch[k]} && batch[k] !in before;
        var id := batch[k];
        events := events[id := if id in events then Merge(events[id], sent[id]) else sent[id]];
      }
      assert batch[..|batch|] == batch;
    }
  }

  // ----- the system and its steps -----------------------------------------

  // flight: the snapshot the running pass selected; landed: the ids of it that some
  // request already carried into the cloud; abandoned: what the requests of earlier
  // passes still carry, which the collector gave up on and the cloud may yet commit.
  datatype System = System(view: View, cloud: map<Id, Copy>, flight: map<Id, Copy>, landed: set<Id>,
                           abandoned: seq<map<Id, Copy>>)

  datatype Step =
    | Sampled(x: Sample)
    | Select(ids: set<Id>)
    | Deliver(ids: set<Id>) // whole batch or single items; the reply may be lost
    | Confirm(ids: set<Id>) // the local mark after a reply
    | Leave                 // the pass ends: done, timed out, or the collector died
    | Late(k: nat, ids: set<Id>) // a request of an earlier pass commits

  predicate Can(s: System, step: Step) {
    match step
    case Sampled(_) => true
    case Select(ids) =>
      s.flight == map[] && forall id :: id in ids ==> id < |s.view.events| && !s.view.events[id].synced
    case Deliver(ids) => ids <= s.flight.Keys
    case Confirm(ids) => ids <= s.landed
    case Leave => true
    case Late(k, ids) => k < |s.abandoned| && ids <= s.abandoned[k].Keys
  }

  function MarkAll(events: seq<Event>, ids: set<Id>): (out: seq<Event>)
    ensures |out| == |events|
  {
    seq(|events|, i requires 0 <= i < |events| => if i in ids then events[i].(synced := true) else events[i])
  }

  function Next(s: System, step: Step): System
    requires Can(s, step)
  {
    match step
    case Sampled(x) => s.(view := AlarmMachine.Step(s.view, x))
    case Select(ids) => s.(flight := map id | id in ids :: CopyOf(s.view.events[id]))
    case Deliver(ids) => s.(cloud := Upsert(s.cloud, s.flight, ids), landed := s.landed + ids)
    case Confirm(ids) => s.(view := s.view.(events := MarkAll(s.view.events, ids)))
    case Leave => s.(flight := map[], landed := {}, abandoned := s.abandoned + [s.flight - s.landed])
    case Late(k, ids) =>
      s.(cloud := Upsert(s.cloud, s.abandoned[k], ids), abandoned := s.abandoned[k := s.abandoned[k] - ids])
  }

  predicate Runs(s: System, steps: seq<Step>)
    decreases |steps|
  {
    steps == [] || (Can(s, steps[0]) && Runs(Next(s, steps[0]), steps[1..]))
  }

  function Run(s: System, steps: seq<Step>): System
    requires Runs(s, steps)
    decreases |steps|
  {
    if steps == [] then s else Run(Next(s, steps[0]), steps[1..])
  }

  // ----- what always holds ------------------------------------------------

  // An earlier state of the same event.
  predicate Behind(c: Copy, e: Event) {
    && c.startedAt == e.startedAt && c.trigger == e.trigger
    && (c.endedAt.Some? ==> c.endedAt == e.endedAt) && c.peak <= e.peak
  }

  predicate AllBehind(copies: map<Id, Copy>, events: seq<Event>) {
    forall id :: id in copies ==> id < |events| && Behind(copies[id], events[id])
  }

  predicate Inv(s: System) {
    && Shape(s.view)
    && AllBehind(s.cloud, s.view.events)
    && AllBehind(s.flight, s.view.events)
    && (forall k :: 0 <= k < |s.abandoned| ==> AllBehind(s.abandoned[k], s.view.events))
    && s.landed <= s.flight.Keys
  }

  // What an evaluation may do to the log.
  predicate Aged(before: seq<Event>, after: seq<Event>) {
    && |before| <= |after|
    && (forall i :: 0 <= i < |before| ==> Behind(CopyOf(before[i]), after[i]))
    && (forall i :: 0 <= i < |before| && !Open(before[i]) ==> after[i] == before[i])
  }

  lemma SampleAges(v: View, x: Sample)
    ensures Aged(v.events, AlarmMachine.Step(v, x).events)
  {
    if x.enabled {
      var w := Switched(v, x);
      assert Aged(v.events, w.events);
      AdvanceAges(w, x);
    }
  }

  lemma AdvanceAges(v: View, x: Sample)
    ensures Aged(v.events, Advance(v, x).events)
  {
  }

  lemma AgedBehind(copies: map<Id, Copy>, before: seq<Event>, after: seq<Event>)
    requires Aged(before, after) && AllBehind(copies, before)
    ensures AllBehind(copies, after)
  {
  }

  lemma SampleKeepsInv(s: System, x: Sample)
    requires Inv(s)
    ensures Inv(Next(s, Sampled(x)))
  {
    hide AlarmMachine.Step, Shape, Aged, AllBehind;
    SampleAges(s.view, x);
    StepKeepsShape(s.view, x);
    var after := AlarmMachine.Step(s.view, x).events;
    AgedBehind(s.cloud, s.view.events, after);
    AgedBehind(s.flight, s.view.events, after);
    forall k | 0 <= k < |s.abandoned| ensures AllBehind(s.abandoned[k], after) {
      AgedBehind(s.abandoned[k], s.view.events, after);
    }
  }

  lemma UpsertBehind(cloud: map<Id, Copy>, sent: map<Id, Copy>, ids: set<Id>, events: seq<Event>)
    requires AllBehind(cloud, events) && AllBehind(sent, events) && ids <= sent.Keys
    ensures AllBehind(Upsert(cloud, sent, ids), events)
  {
  }

  lemma StepKeepsInv(s: System, step: Step)
    requires Inv(s) && Can(s, step)
    ensures Inv(Next(s, step))
  {
    match step {
      case Sampled(x) => SampleKeepsInv(s, x);
      case Deliver(ids) => UpsertBehind(s.cloud, s.flight, ids, s.view.events);
      case Late(k, ids) => UpsertBehind(s.cloud, s.abandoned[k], ids, s.view.events);
      case _ =>
    }
  }

  /** Over every run, late commits of old requests included, the cloud's copy of an
      event is a past state of it: same start and trigger, never an end the collector
      has not recorded, never a higher peak. */
  lemma {:induction false} CloudLagsBehind(s: System, steps: seq<Step>)
    requires Inv(s) && Runs(s, steps)
    ensures Inv(Run(s, steps))
    decreases |steps|
  {
    hide Next, Can, Inv;
    if steps != [] {
      StepKeepsInv(s, steps[0]);
      CloudLagsBehind(Next(s, steps[0]), steps[1..]);
    }
  }

  // ----- when synced means equal ------------------------------------------

  predicate Same(cloud: map<Id, Copy>, e: Event, id: Id) { id in cloud && cloud[id] == CopyOf(e) }

  predicate Coherent(s: System) {
    forall i :: 0 <= i < |s.view.events| && s.view.events[i].synced ==> Same(s.cloud, s.view.events[i], i)
  }

  // The sample comes from another source than an open event already uploaded.
  predicate StaleClose(v: View, x: Sample) {
    x.enabled && v.row.Some? && v.row.value.source != x.source
    && v.events != [] && Open(v.events[|v.events| - 1]) && v.events[|v.events| - 1].synced
  }

  /** An evaluation between passes keeps "synced means equal" exactly when it does not
      close an uploaded open event on a change of source. */
  lemma SampleKeepsCoherentIff(s: System, x: Sample)
    requires Inv(s) && Coherent(s)
    ensures Coherent(Next(s, Sampled(x))) <==> !StaleClose(s.view, x)
  {
    var v, w := s.view, AlarmMachine.Step(s.view, x);
    SampleAges(v, x);
    if StaleClose(v, x) {
      var last := |v.events| - 1;
      assert Same(s.cloud, v.events[last], last);
      assert w.events[last].synced && w.events[last].endedAt.Some?;
    } else {
      forall i | 0 <= i < |w.events| && w.events[i].synced ensures i < |v.events| && w.events[i] == v.events[i] {
        SyncedUntouched(v, x, i);
      }
      assert forall i :: 0 <= i < |w.events| && w.events[i].synced ==> Same(s.cloud, v.events[i], i);
    }
  }

  lemma SyncedUntouched(v: View, x: Sample, i: nat)
    requires Shape(v) && !StaleClose(v, x)
    requires i < |AlarmMachine.Step(v, x).events| && AlarmMachine.Step(v, x).events[i].synced
    ensures i < |v.events| && AlarmMachine.Step(v, x).events[i] == v.events[i]
  {
    if x.enabled {
      var w := Switched(v, x);
      assert i < |v.events| ==> w.events[i] == v.events[i] || !w.events[i].synced;
    }
  }

  // Each synced event the request carries still has the peak it carries.
  predicate SamePeaks(s: System, k: nat, ids: set<Id>)
    requires Can(s, Late(k, ids))
  {
    forall i :: i in ids && i < |s.view.events| && s.view.events[i].synced ==>
      s.abandoned[k][i].peak == s.view.events[i].peak
  }

  /** A late commit keeps "synced means equal" exactly when every synced event it
      carries still has the peak it carries. */
  lemma LateKeepsCoherentIff(s: System, k: nat, ids: set<Id>)
    requires Inv(s) && Coherent(s) && Can(s, Late(k, ids))
    ensures Coherent(Next(s, Late(k, ids))) <==> SamePeaks(s, k, ids)
  {
    hide Shape;
    var t := Next(s, Late(k, ids));
    assert AllBehind(s.abandoned[k], s.view.events);
    forall i | 0 <= i < |s.view.events| && s.view.events[i].synced
      ensures Same(t.cloud, s.view.events[i], i) <==> (i in ids ==> s.abandoned[k][i].peak == s.view.events[i].peak)
    {
      assert Same(s.cloud, s.view.events[i], i);
      assert i in ids ==> Behind(s.abandoned[k][i], s.view.events[i]);
    }
  }

  // No in-flight event changes under the evaluation, and none is closed silently; a
  // late commit brings no other peak to an event that is synced or already landed.
  predicate Harmless(s: System, step: Step)
    requires Can(s, step)
  {
    match step
    case Sampled(x) =>
      !StaleClose(s.view, x) && forall i :: i in s.flight && i < |s.view.events| ==> Untouched(s.view, x, i)
    case Late(k, ids) =>
      SamePeaks(s, k, ids)
      && forall i :: i in ids && i in s.landed && i < |s.view.events| ==>
           s.abandoned[k][i].peak == s.view.events[i].peak
    case _ => true
  }

  predicate Untouched(v: View, x: Sample, i: nat)
    requires i < |v.events|
  {
    i < |AlarmMachine.Step(v, x).events| && CopyOf(AlarmMachine.Step(v, x).events[i]) == CopyOf(v.events[i])
  }

  predicate Settled(s: System) {
    && (forall i :: i in s.flight ==> i < |s.view.events| && s.flight[i] == CopyOf(s.view.events[i]))
    && (forall i :: i in s.landed ==> i < |s.view.events| && Same(s.cloud, s.view.events[i], i))
  }

  lemma HarmlessStep(s: System, step: Step)
    requires Inv(s) && Coherent(s) && Settled(s) && Can(s, step) && Harmless(s, step)
    ensures Coherent(Next(s, step)) && Settled(Next(s, step))
  {
    match step {
      case Sampled(x) => HarmlessSample(s, x);
      case Deliver(ids) => HarmlessDeliver(s, ids);
      case Late(k, ids) => HarmlessLate(s, k, ids);
      case _ =>
    }
  }

  lemma HarmlessDeliver(s: System, ids: set<Id>)
    requires Inv(s) && Coherent(s) && Settled(s) && Can(s, Deliver(ids))
    ensures Coherent(Next(s, Deliver(ids))) && Settled(Next(s, Deliver(ids)))
  {
    hide Shape;
    forall i | 0 <= i < |s.view.events| && i in ids ensures Same(Next(s, Deliver(ids)).cloud, s.view.events[i], i) {
      assert Behind(s.flight[i], s.view.events[i]);
      assert i in s.cloud ==> Behind(s.cloud[i], s.view.events[i]);
    }
  }

  lemma HarmlessLate(s: System, k: nat, ids: set<Id>)
    requires Inv(s) && Coherent(s) && Settled(s) && Can(s, Late(k, ids)) && Harmless(s, Late(k, ids))
    ensures Coherent(Next(s, Late(k, ids))) && Settled(Next(s, Late(k, ids)))
  {
    hide Shape;
    LateKeepsCoherentIff(s, k, ids);
    var t := Next(s, Late(k, ids));
    assert AllBehind(s.abandoned[k], s.view.events);
    forall i | i in s.landed ensures i < |s.view.events| && Same(t.cloud, s.view.events[i], i) {
      assert Same(s.cloud, s.view.events[i], i);
      assert i in ids ==> Behind(s.abandoned[k][i], s.view.events[i]);
    }
  }

  lemma HarmlessSample(s: System, x: Sample)
    requires Inv(s) && Coherent(s) && Settled(s) && Harmless(s, Sampled(x))
    ensures Coherent(Next(s, Sampled(x))) && Settled(Next(s, Sampled(x)))
  {
    hide AlarmMachine.Step, Shape;
    SampleKeepsCoherentIff(s, x);
    forall i | i in s.flight ensures Untouched(s.view, x, i) {
    }
  }

  ghost predicate AllHarmless(s: System, steps: seq<Step>)
    requires Runs(s, steps)
    decreases |steps|
  {
    steps == [] || (Harmless(s, steps[0]) && AllHarmless(Next(s, steps[0]), steps[1..]))
  }

  /** Over every run in which no evaluation changes an in-flight event or closes an
      uploaded one on a source change, and no late commit brings an older peak to an
      uploaded event, an event marked synced equals the cloud's copy, with lost
      requests, lost replies, repeated and late deliveries at will. */
  lemma {:induction false} SyncedMeansEqual(s: System, steps: seq<Step>)
    requires Inv(s) && Coherent(s) && Settled(s) && Runs(s, steps) && AllHarmless(s, steps)
    ensures Coherent(Run(s, steps))
    decreases |steps|
  {
    hide Next, Can, Inv, Coherent, Settled, Harmless;
    if steps != [] {
      StepKeepsInv(s, steps[0]);
      HarmlessStep(s, steps[0]);
      SyncedMeansEqual(Next(s, steps[0]), steps[1..]);
    }
  }
}
