/** What uploads, settings, tests and maintenance leave in the tables of the notification
    queue, and what limits they put on later runs. */
module EmailWrites {
  import opened Common
  import opened EmailStore
  import opened EmailProtocol
  import opened EmailTheorems

  // ----- what stops a notice ----------------------------------------------

  // A moment of both the period and the event.
  predicate Shares(p: Period, e: Event, t: int) {
    p.startedAt <= t < PeriodEnd(p) && e.startedAt <= t && (e.endedAt.Some? ==> t <= e.endedAt.value)
  }

  /** A period overlaps an event exactly when they share a moment, for periods and events
      that do not end before they start. */
  lemma OverlapIsMoment(p: Period, e: Event)
    requires p.startedAt < PeriodEnd(p) && (e.endedAt.Some? ==> e.startedAt <= e.endedAt.value)
    ensures Overlaps(p, e) <==> exists t :: Shares(p, e, t)
  {
    if Overlaps(p, e) {
      assert Shares(p, e, if p.startedAt < e.startedAt then e.startedAt else p.startedAt);
    }
  }

  // The device was under maintenance at some time of the row's event.
  predicate Excused(db: Db, r: Row) {
    r.kind != Test && r.event.Some? && r.event.value in db.events &&
    exists k :: 0 <= k < |db.periods| && db.periods[k].device == db.events[r.event.value].device
                && Overlaps(db.periods[k], db.events[r.event.value])
  }

  /** A notice is withdrawn exactly when its customer or an operator stopped it or its
      device was under maintenance during the event. */
  lemma WithdrawnIff(s: System, i: nat)
    requires Inv(s) && i < |s.db.rows|
    ensures RowWithdrawn(s.db, s.db.rows[i], s.now) <==> Stopped(s, i) || Excused(s.db, s.db.rows[i])
  {
    var r := s.db.rows[i];
    assert RowInv(r) && EventKnown(s.db, r);
    if Stopped(s, i) {
      StoppedRow(s, i);
    } else if Excused(s.db, r) {
      assert Maintained(s.db.periods, s.db.events[r.event.value], s.now);
    }
  }

  // ----- enqueueing -------------------------------------------------------

  // Everything a notice is looked up by.
  datatype Key = Key(customer: CustomerId, event: EventId, kind: Kind, to: Address)

  predicate Has(rows: seq<Row>, k: Key) { Queued(rows, k.customer, Some(k.event), k.kind, k.to) }

  lemma AddedIs(rows: seq<Row>, r: Row, k: Key)
    ensures Has(rows + [r], k) <==> Has(rows, k) || SameNotice(r, k.customer, Some(k.event), k.kind, k.to)
  {
    var out := rows + [r];
    if Has(rows, k) {
      var i :| 0 <= i < |rows| && SameNotice(rows[i], k.customer, Some(k.event), k.kind, k.to);
      assert out[i] == rows[i];
    }
    assert out[|rows|] == r;
  }

  /** Enqueueing for a list of recipients adds the notices of exactly those recipients. */
  lemma {:induction false} EveryRecipient(rows: seq<Row>, uid: nat, c: CustomerId, e: EventId, kind: Kind,
                                          to: seq<Address>, now: int, k: Key)
    ensures Has(EnqueueAll(rows, uid, c, Some(e), kind, to, now), k) <==>
      Has(rows, k) || (k.customer == c && k.event == e && k.kind == kind && k.to in to)
    decreases |to|
  {
    if to != [] {
      var next := Enqueue(rows, uid, c, Some(e), kind, to[0], now);
      EveryRecipient(next, uid + 1, c, e, kind, to[1..], now, k);
      AddedIs(rows, NewRow(uid, c, Some(e), kind, to[0], now), k);
      assert to == [to[0]] + to[1..];
    }
  }

  // A notice just queued: due at once, never tried.
  predicate Untried(r: Row, now: int) {
    && r.status == Pending && r.attempts == 0 && r.createdAt == now && r.nextAttempt == now
    && r.claim.None? && r.lease.None? && r.sentAt.None? && r.lastError.None?
  }

  predicate TestFor(r: Row, c: CustomerId, to: Address, now: int) {
    Untried(r, now) && r.customer == c && r.event.None? && r.kind == Test && r.recipient == to
  }

  /** A test goes to each recipient in turn, however many tests are still queued. */
  lemma {:induction false} EveryTest(rows: seq<Row>, uid: nat, c: CustomerId, to: seq<Address>, now: int)
    ensures var out := EnqueueAll(rows, uid, c, None, Test, to, now);
      && |out| == |rows| + |to| && out[..|rows|] == rows
      && forall k :: 0 <= k < |to| ==> TestFor(out[|rows| + k], c, to[k], now)
    decreases |to|
  {
    if to != [] {
      var next := rows + [NewRow(uid, c, None, Test, to[0], now)];
      EveryTest(next, uid + 1, c, to[1..], now);
      var out := EnqueueAll(rows, uid, c, None, Test, to, now);
      assert out[..|rows|] == out[..|next|][..|rows|];
      assert out[|rows|] == out[..|next|][|rows|];
      forall k | 0 <= k < |to| ensures TestFor(out[|rows| + k], c, to[k], now) {
        if k > 0 { assert TestFor(out[|next| + (k - 1)], c, to[1..][k - 1], now); }
      }
    }
  }

  // The customer is to hear of the event as it is stored now.
  predicate Wants(db: Db, c: CustomerId, e: EventId, now: int) {
    && e in db.events && db.events[e].customer == c && db.events[e].live
    && db.events[e].device in db.devices && db.devices[db.events[e].device] == Device(c, true)
    && !Maintained(db.periods, db.events[e], now)
    && c in db.policies && db.policies[c].enabled && db.policies[c].enabledSince <= db.events[e].startedAt
  }

  // The kind of notice a stored event calls for, if any.
  predicate Calls(db: Db, c: CustomerId, e: EventId, kind: Kind)
    requires e in db.events && c in db.policies
  {
    if db.events[e].endedAt.None? then kind == Alarm else kind == Recovery && db.policies[c].notifyRecovery
  }

  /** After an event is enqueued, its notices are those there were and, when the customer
      is to hear of it, one of the kind called for to each recipient; and none of its alarm
      notices is left queued once it is over. Otherwise nothing changes. */
  lemma EnqueueOutcome(db: Db, uid: nat, c: CustomerId, e: EventId, now: int, k: Key)
    ensures var t := EnqueueAlarm(db, uid, c, e, now);
      && (!Wants(db, c, e, now) ==> t == db)
      && (Wants(db, c, e, now) ==>
            && (Has(t.rows, k) <==>
                  Has(db.rows, k)
                  || (k.customer == c && k.event == e && Calls(db, c, e, k.kind) && k.to in db.policies[c].recipients))
            && (db.events[e].endedAt.Some? ==>
                  forall i :: 0 <= i < |t.rows| && AlarmNoticeOf(t.rows[i], c, e) ==> t.rows[i].status != Pending))
  {
    hide Maintained, SameNotice;
    if Wants(db, c, e, now) {
      if db.events[e].endedAt.None? {
        EveryRecipient(db.rows, uid, c, e, Alarm, db.policies[c].recipients, now, k);
      } else {
        RecoveryOutcome(db.rows, uid, c, e, db.policies[c].recipients, now, k);
      }
    }
  }

  lemma RecoveryOutcome(rows: seq<Row>, uid: nat, c: CustomerId, e: EventId, to: seq<Address>, now: int, k: Key)
    ensures var cancelled := Cancel(rows, (r: Row) => AlarmNoticeOf(r, c, e));
      var out := EnqueueAll(cancelled, uid, c, Some(e), Recovery, to, now);
      && (Has(cancelled, k) <==> Has(rows, k))
      && (Has(out, k) <==> Has(rows, k) || (k.customer == c && k.event == e && k.kind == Recovery && k.to in to))
      && (forall i :: 0 <= i < |cancelled| && AlarmNoticeOf(cancelled[i], c, e) ==> cancelled[i].status != Pending)
      && (forall i :: 0 <= i < |out| && AlarmNoticeOf(out[i], c, e) ==> out[i].status != Pending)
  {
    var cancelled := Cancel(rows, (r: Row) => AlarmNoticeOf(r, c, e));
    var out := EnqueueAll(cancelled, uid, c, Some(e), Recovery, to, now);
    SameKeys(rows, cancelled, k);
    hide Has, Cancel;
    EveryRecipient(cancelled, uid, c, e, Recovery, to, now, k);
    EnqueueAllEvolves(cancelled, uid, c, Some(e), Recovery, to, now);
    assert forall i :: 0 <= i < |cancelled| ==> out[..|cancelled|][i] == cancelled[i];
  }

  lemma SameKeys(rows: seq<Row>, rows': seq<Row>, k: Key)
    requires |rows| == |rows'| && forall i :: 0 <= i < |rows| ==> SameNoticeTarget(rows[i], rows'[i])
    ensures Has(rows, k) <==> Has(rows', k)
  {
    if Has(rows, k) {
      var i :| 0 <= i < |rows| && SameNotice(rows[i], k.customer, Some(k.event), k.kind, k.to);
      assert SameNotice(rows'[i], k.customer, Some(k.event), k.kind, k.to);
    }
    if Has(rows', k) {
      var i :| 0 <= i < |rows'| && SameNotice(rows'[i], k.customer, Some(k.event), k.kind, k.to);
      assert SameNotice(rows[i], k.customer, Some(k.event), k.kind, k.to);
    }
  }

  /** New notices are due at once. */
  lemma {:induction false} NewUntried(rows: seq<Row>, uid: nat, c: CustomerId, e: Option<EventId>, kind: Kind,
                                      to: seq<Address>, now: int, i: nat)
    requires |rows| <= i < |EnqueueAll(rows, uid, c, e, kind, to, now)|
    ensures Untried(EnqueueAll(rows, uid, c, e, kind, to, now)[i], now)
    decreases |to|
  {
    EnqueueAllEvolves(rows, uid, c, e, kind, to, now);
  }

  // ----- the stored event -------------------------------------------------

  /** A first upload is stored as it is; a later one for the same customer, site, room and
      device can only add the end, and one for another is refused. */
  lemma StoreOutcome(db: Db, e: EventId, incoming: Event)
    ensures var out := StoreEvent(db, e, incoming);
      && (out.None? <==>
            e in db.events
            && !(db.events[e].customer == incoming.customer && db.events[e].site == incoming.site
                 && db.events[e].room == incoming.room && db.events[e].device == incoming.device))
      && (out.Some? ==>
            && out.value == db.(events := out.value.events) && out.value.events.Keys == db.events.Keys + {e}
            && (forall x :: x in db.events && x != e ==> out.value.events[x] == db.events[x])
            && (e !in db.events ==> out.value.events[e] == incoming)
            && (e in db.events ==>
                  && EventStays(db.events[e], out.value.events[e])
                  && out.value.events[e].startedAt == db.events[e].startedAt
                  && out.value.events[e].live == db.events[e].live
                  && (db.events[e].endedAt.None? ==> out.value.events[e].endedAt == incoming.endedAt)))
  {
  }

  predicate EventStays(e: Event, e': Event) {
    && e'.customer == e.customer && e'.site == e.site && e'.room == e.room && e'.device == e.device
    && (e.endedAt.Some? ==> e'.endedAt == e.endedAt)
  }

  // The k-th event of a request is known only for its own customer, site, room and device.
  predicate Unclaimed(db: Db, batch: seq<Item>, k: nat)
    requires k < |batch|
  {
    && (batch[k].id in db.events ==> SameOwner(db.events[batch[k].id], batch[k].event))
    && forall j :: 0 <= j < k && batch[j].id == batch[k].id ==> SameOwner(batch[j].event, batch[k].event)
  }

  lemma IngestEvents(db: Db, item: Item, now: int)
    requires StoreEvent(db, item.id, item.event).Some?
    ensures var t := Ingest(db, item.uid, item.id, item.event, now);
      && t.events.Keys == db.events.Keys + {item.id} && SameOwner(t.events[item.id], item.event)
      && forall x :: x in db.events ==> SameOwner(t.events[x], db.events[x])
  {
    var stored := StoreEvent(db, item.id, item.event).value;
    EnqueueAlarmEvolves(stored, item.uid, item.event.customer, item.id, now);
  }

  /** A request is accepted exactly when each of its events is new, or stored or sent
      earlier in it for the same customer, site, room and device. */
  lemma {:induction false} RequestAcceptedIff(db: Db, batch: seq<Item>, now: int)
    ensures IngestAll(db, batch, now).Some? <==> forall k: nat :: k < |batch| ==> Unclaimed(db, batch, k)
    decreases |batch|
  {
    hide Ingest, StoreEvent;
    if batch != [] {
      StoreOutcome(db, batch[0].id, batch[0].event);
      var rest := batch[1..];
      if StoreEvent(db, batch[0].id, batch[0].event).Some? {
        var t := Ingest(db, batch[0].uid, batch[0].id, batch[0].event, now);
        IngestEvents(db, batch[0], now);
        RequestAcceptedIff(t, rest, now);
        forall k: nat | k < |rest| ensures Unclaimed(t, rest, k) <==> Unclaimed(db, batch, k + 1) {
          assert forall j :: 0 <= j < k ==> rest[j] == batch[j + 1];
          assert forall j :: 0 < j < k + 1 ==> batch[j] == rest[j - 1];
        }
        assert Unclaimed(db, batch, 0);
        forall k: nat | k < |batch| && k > 0 ensures Unclaimed(db, batch, k) <==> Unclaimed(t, rest, k - 1) {
        }
      } else {
        assert !Unclaimed(db, batch, 0);
      }
    }
  }

  // ----- settings and tests -----------------------------------------------

  /** Saving stores exactly the given settings. The time notices count from moves only when
      they are switched on, the last test is kept, and of the queue exactly this customer's
      pending notices that the new settings rule out are cancelled. */
  lemma SaveOutcome(db: Db, c: CustomerId, enabled: bool, to: seq<Address>, recovery: bool, now: int)
    ensures var t := SaveSettings(db, c, enabled, to, recovery, now);
      && t == db.(rows := t.rows, policies := t.policies) && t.policies.Keys == db.policies.Keys + {c}
      && (forall d :: d in db.policies && d != c ==> t.policies[d] == db.policies[d])
      && t.policies[c].enabled == enabled && t.policies[c].recipients == to && t.policies[c].notifyRecovery == recovery
      && (c in db.policies ==> t.policies[c].lastTest == db.policies[c].lastTest)
      && (c in db.policies && (db.policies[c].enabled || !enabled) ==>
            t.policies[c].enabledSince == db.policies[c].enabledSince)
      && (c !in db.policies || (enabled && !db.policies[c].enabled) ==> t.policies[c].enabledSince == now)
    ensures var t := SaveSettings(db, c, enabled, to, recovery, now);
      && |t.rows| == |db.rows|
      && forall i :: 0 <= i < |db.rows| ==>
           var r := db.rows[i];
           var out := r.customer == c && r.status == Pending
             && (r.recipient !in to || (r.kind != Test && !enabled) || (r.kind == Recovery && !recovery));
           t.rows[i] == if out then r.(status := Cancelled) else r
  {
  }

  /** A test reaches every recipient and is remembered; no other setting changes. */
  lemma TestOutcome(db: Db, uid: nat, c: CustomerId, now: int)
    requires TestAllowed(db, c, now)
    ensures var t := QueueTest(db, uid, c, now); var to := db.policies[c].recipients;
      && t == db.(rows := t.rows, policies := db.policies[c := db.policies[c].(lastTest := Some(now))])
      && |t.rows| == |db.rows| + |to| && to != [] && t.rows[..|db.rows|] == db.rows
      && forall k :: 0 <= k < |to| ==> TestFor(t.rows[|db.rows| + k], c, to[k], now)
  {
    EveryTest(db.rows, uid, c, db.policies[c].recipients, now);
  }

  predicate TestedSince(s: System, c: CustomerId, at: int) {
    && c in s.db.policies && s.db.policies[c].lastTest.Some? && at <= s.db.policies[c].lastTest.value
    && s.db.policies[c].lastTest.value <= s.now
  }

  lemma TestRemembered(s: System, step: Step, c: CustomerId, at: int)
    requires Can(s, step) && TestedSince(s, c, at)
    ensures TestedSince(Next(s, step), c, at)
  {
    if step.Upload? {
      var stored := StoreEvent(s.db, step.e, step.incoming);
      if stored.Some? {
        EnqueueAlarmEvolves(stored.value, step.uid, step.incoming.customer, step.e, s.now);
      }
    }
  }

  lemma {:induction false} TestRememberedRun(s: System, steps: seq<Step>, c: CustomerId, at: int)
    requires Runs(s, steps) && TestedSince(s, c, at)
    ensures TestedSince(Run(s, steps), c, at)
    decreases |steps|
  {
    hide Can, Next, TestedSince;
    if steps != [] {
      TestRemembered(s, steps[0], c, at);
      TestRememberedRun(Next(s, steps[0]), steps[1..], c, at);
    }
  }

  /** Over every run two tests of one customer are at least a minute apart. */
  lemma TestsSpaced(s: System, uid: nat, c: CustomerId, steps: seq<Step>, uid': nat)
    requires Can(s, TestMail(uid, c)) && Runs(Next(s, TestMail(uid, c)), steps)
    requires Can(Run(Next(s, TestMail(uid, c)), steps), TestMail(uid', c))
    ensures s.now + 60 <= Run(Next(s, TestMail(uid, c)), steps).now
  {
    TestRememberedRun(Next(s, TestMail(uid, c)), steps, c, s.now);
  }

  // ----- maintenance ------------------------------------------------------

  /** Maintenance starts now, lasts until the given time, and cancels exactly the pending
      notices of this device's events. */
  lemma MaintenanceOutcome(db: Db, d: DeviceId, endsAt: int, now: int)
    requires MaintenanceAllowed(db, d, endsAt, now)
    ensures var t := StartMaintenance(db, d, endsAt, now);
      && t == db.(rows := t.rows, periods := t.periods) && |t.periods| == |db.periods| + 1
      && t.periods[..|db.periods|] == db.periods && t.periods[|db.periods|] == Period(d, now, endsAt, None)
      && |t.rows| == |db.rows|
      && forall i :: 0 <= i < |db.rows| ==>
           var r := db.rows[i];
           var hit := r.status == Pending && r.event.Some? && r.event.value in db.events
             && db.events[r.event.value].device == d && db.events[r.event.value].customer == r.customer
             && db.devices[d].customer == r.customer;
           t.rows[i] == if hit then r.(status := Cancelled) else r
  {
  }

  // No end is recorded ahead of time.
  predicate Recorded(p: Period, now: int) { p.endedAt.Some? ==> p.endedAt.value <= now }

  /** Ending it leaves the device outside every period and changes no other. */
  lemma EndOutcome(db: Db, d: DeviceId, now: int)
    ensures var t := EndMaintenance(db, d, now);
      && t == db.(periods := t.periods) && |t.periods| == |db.periods|
      && forall i :: 0 <= i < |db.periods| ==>
           && SamePlan(db.periods[i], t.periods[i])
           && (t.periods[i].device == d && Recorded(db.periods[i], now) ==> PeriodEnd(t.periods[i]) <= now)
           && (db.periods[i].device != d || PeriodEnd(db.periods[i]) <= now ==> t.periods[i] == db.periods[i])
  {
  }

  predicate SamePlan(p: Period, q: Period) {
    q.device == p.device && q.startedAt == p.startedAt && q.endsAt == p.endsAt
  }

  /** A device switched off is in no maintenance either. */
  lemma SwitchOutcome(db: Db, d: DeviceId, enabled: bool, now: int)
    requires d in db.devices
    ensures var t := SetDevice(db, d, enabled, now);
      && t == db.(devices := db.devices[d := Device(db.devices[d].customer, enabled)], periods := t.periods)
      && (enabled ==> t.periods == db.periods)
      && (!enabled ==> t.periods == EndMaintenance(db, d, now).periods)
  {
  }

  // Each period was planned for a minute to a week, and no two of a device meet.
  predicate Planned(periods: seq<Period>, now: int) {
    && (forall i :: 0 <= i < |periods| ==> Recorded(periods[i], now) && periods[i].startedAt <= now)
    && (forall i :: 0 <= i < |periods| ==> 60 <= periods[i].endsAt - periods[i].startedAt <= 604800)
    && (forall i, j :: 0 <= i < j < |periods| && periods[i].device == periods[j].device ==>
          PeriodEnd(periods[i]) <= periods[j].startedAt)
  }

  lemma EndKeepsPlan(periods: seq<Period>, d: DeviceId, now: int)
    requires Planned(periods, now)
    ensures Planned(EndPeriods(periods, d, now), now)
  {
    var out := EndPeriods(periods, d, now);
    forall i | 0 <= i < |out| ensures SamePlan(periods[i], out[i]) && PeriodEnd(out[i]) <= PeriodEnd(periods[i]) {
    }
  }

  lemma MaintainKeepsPlan(db: Db, d: DeviceId, endsAt: int, now: int)
    requires Planned(db.periods, now) && MaintenanceAllowed(db, d, endsAt, now)
    ensures Planned(StartMaintenance(db, d, endsAt, now).periods, now)
  {
    hide Cancel;
  }

  lemma StepKeepsPlan(s: System, step: Step)
    requires Can(s, step) && Planned(s.db.periods, s.now)
    ensures Planned(Next(s, step).db.periods, Next(s, step).now)
  {
    match step
    case Maintain(d, endsAt) => MaintainKeepsPlan(s.db, d, endsAt, s.now);
    case Resume(d) => EndKeepsPlan(s.db.periods, d, s.now);
    case Switch(d, _) => EndKeepsPlan(s.db.periods, d, s.now);
    case Upload(uid, e, incoming) =>
      hide Planned;
      var stored := StoreEvent(s.db, e, incoming);
      if stored.Some? {
        EnqueueAlarmEvolves(stored.value, uid, incoming.customer, e, s.now);
      }
    case Tick(_) =>
    case _ => assert Next(s, step).db.periods == s.db.periods && Next(s, step).now == s.now;
  }

  /** Over every run no device is in two maintenance periods at once, and none was planned
      for more than a week. */
  lemma {:induction false} PeriodsApart(s: System, steps: seq<Step>)
    requires Runs(s, steps) && Planned(s.db.periods, s.now)
    ensures Planned(Run(s, steps).db.periods, Run(s, steps).now)
    decreases |steps|
  {
    hide Can, Next, Planned;
    if steps != [] {
      StepKeepsPlan(s, steps[0]);
      PeriodsApart(Next(s, steps[0]), steps[1..]);
    }
  }
}
