/** The durable notification queue: its tables, the transactions on them as
    functions of the tables, and the store whose methods run those transactions
    in place. Every transaction reads one clock value, the database's now(). */
module EmailStore {
  import opened Common

  type CustomerId = nat
  type EventId = nat
  type DeviceId = nat
  type Address = nat
  type Token = nat

  const MAX_ATTEMPTS: nat := 5
  const LEASE_SECONDS := 300

  datatype Kind = Alarm | Recovery | Test
  datatype Status = Pending | Sending | Sent | Failed | Cancelled
  datatype Error = DeliveryOutcomeUnknown | Smtp(code: nat)

  // uid is the row's uuid: it only breaks ties of the creation time.
  datatype Row = Row(
    uid: nat, customer: CustomerId, event: Option<EventId>, kind: Kind, recipient: Address,
    status: Status, attempts: nat, claim: Option<Token>, lease: Option<int>,
    nextAttempt: int, createdAt: int, sentAt: Option<int>, lastError: Option<Error>)

  datatype Policy = Policy(enabled: bool, recipients: seq<Address>, notifyRecovery: bool,
                           enabledSince: int, lastTest: Option<int>)
  // live: its source is a device, not a demonstration.
  datatype Event = Event(customer: CustomerId, site: nat, room: nat, device: DeviceId, live: bool,
                         startedAt: int, endedAt: Option<int>)
  datatype Device = Device(customer: CustomerId, enabled: bool)
  datatype Period = Period(device: DeviceId, startedAt: int, endsAt: int, endedAt: Option<int>)

  datatype Db = Db(rows: seq<Row>, policies: map<CustomerId, Policy>, events: map<EventId, Event>,
                   devices: map<DeviceId, Device>, periods: seq<Period>)

  // The copy of a claimed row a worker carries to the mail server and back.
  datatype Job = Job(index: nat, customer: CustomerId, event: Option<EventId>, kind: Kind,
                     recipient: Address, attempts: nat, token: Token)

  datatype Claimed = Nothing | Skipped | Handed(job: Job)

  // ----- conditions -------------------------------------------------------

  const NO_POLICY := Policy(false, [], true, 0, None)

  function PolicyOf(db: Db, c: CustomerId): Policy {
    if c in db.policies then db.policies[c] else NO_POLICY
  }

  predicate Forbids(p: Policy, kind: Kind, recipient: Address) {
    || recipient !in p.recipients
    || (kind != Test && (!p.enabled || (kind == Recovery && !p.notifyRecovery)))
  }

  function PeriodEnd(p: Period): int { OptionMin(p.endsAt, p.endedAt) }

  predicate Current(p: Period, now: int) { p.startedAt <= now < PeriodEnd(p) }

  predicate Overlaps(p: Period, e: Event) {
    (e.endedAt.Some? ==> p.startedAt <= e.endedAt.value) && e.startedAt < PeriodEnd(p)
  }

  predicate Maintained(periods: seq<Period>, e: Event, now: int) {
    exists i :: 0 <= i < |periods| && periods[i].device == e.device
                && (Current(periods[i], now) || Overlaps(periods[i], e))
  }

  // The event as read for a customer together with its device, if both exist.
  predicate Readable(db: Db, c: CustomerId, e: Option<EventId>) {
    && e.Some? && e.value in db.events && db.events[e.value].customer == c
    && db.events[e.value].device in db.devices
    && db.devices[db.events[e.value].device].customer == c
  }

  predicate Suppressed(db: Db, c: CustomerId, e: Option<EventId>, now: int) {
    !Readable(db, c, e)
    || !db.devices[db.events[e.value].device].enabled
    || Maintained(db.periods, db.events[e.value], now)
  }

  predicate Ended(db: Db, c: CustomerId, e: Option<EventId>) {
    e.Some? && e.value in db.events && db.events[e.value].customer == c
    ==> db.events[e.value].endedAt.Some?
  }

  // What both claim and failed finish test before (re)sending a notice.
  predicate Withdrawn(db: Db, c: CustomerId, e: Option<EventId>, kind: Kind, recipient: Address, now: int) {
    || Forbids(PolicyOf(db, c), kind, recipient)
    || (kind == Alarm && Ended(db, c, e))
    || (kind != Test && Suppressed(db, c, e, now))
  }

  predicate RowWithdrawn(db: Db, r: Row, now: int) {
    Withdrawn(db, r.customer, r.event, r.kind, r.recipient, now)
  }

  predicate Eligible(r: Row, now: int) {
    || (r.status == Pending && r.nextAttempt <= now)
    || (r.status == Sending && r.lease.Some? && r.lease.value <= now)
  }

  predicate Earlier(a: Row, b: Row) {
    a.createdAt < b.createdAt || (a.createdAt == b.createdAt && a.uid < b.uid)
  }

  predicate Candidate(rows: seq<Row>, now: int, locked: set<nat>, i: nat) {
    i < |rows| && i !in locked && Eligible(rows[i], now)
  }

  // ORDER BY created_at,id LIMIT 1 among the due rows nobody else has locked.
  ghost predicate IsFirst(rows: seq<Row>, now: int, locked: set<nat>, i: nat) {
    && Candidate(rows, now, locked, i)
    && forall j: nat :: Candidate(rows, now, locked, j) ==> !Earlier(rows[j], rows[i])
  }

  // ----- claim ------------------------------------------------------------

  function Drop(r: Row): Row {
    if r.status == Sending
    then r.(status := Failed, lastError := Some(DeliveryOutcomeUnknown), claim := None, lease := None)
    else r.(status := Cancelled, lastError := None, claim := None, lease := None)
  }

  function GiveUp(r: Row): Row {
    r.(status := Failed, lastError := Some(DeliveryOutcomeUnknown), claim := None, lease := None)
  }

  function Take(r: Row, now: int, token: Token): Row {
    r.(status := Sending, attempts := r.attempts + 1, claim := Some(token), lease := Some(now + LEASE_SECONDS))
  }

  predicate HandsOut(db: Db, r: Row, now: int) {
    !RowWithdrawn(db, r, now) && r.attempts < MAX_ATTEMPTS
  }

  function ClaimedRow(db: Db, r: Row, now: int, token: Token): Row {
    if RowWithdrawn(db, r, now) then Drop(r)
    else if r.attempts >= MAX_ATTEMPTS then GiveUp(r)
    else Take(r, now, token)
  }

  function Claim(db: Db, i: nat, now: int, token: Token): Db
    requires i < |db.rows|
  {
    db.(rows := db.rows[i := ClaimedRow(db, db.rows[i], now, token)])
  }

  function JobOf(r: Row, i: nat, token: Token): Job {
    Job(i, r.customer, r.event, r.kind, r.recipient, r.attempts + 1, token)
  }

  // ----- finish -----------------------------------------------------------

  function Power2(n: nat): nat { if n == 0 then 1 else 2 * Power2(n - 1) }

  function Backoff(attempts: nat): int
    requires attempts >= 1
  {
    if 60 * Power2(attempts - 1) < 3600 then 60 * Power2(attempts - 1) else 3600
  }

  predicate Live(r: Row, job: Job) { r.status == Sending && r.claim == Some(job.token) }

  function FinishStatus(db: Db, job: Job, error: Option<Error>, now: int): Status {
    if error.None? then Sent
    else if Withdrawn(db, job.customer, job.event, job.kind, job.recipient, now) then Cancelled
    else if job.attempts >= MAX_ATTEMPTS then Failed
    else Pending
  }

  function FinishedRow(db: Db, r: Row, job: Job, error: Option<Error>, now: int): Row
    requires job.attempts >= 1
  {
    r.(status := FinishStatus(db, job, error, now), lastError := error,
       sentAt := if error.None? then Some(now) else r.sentAt,
       nextAttempt := now + Backoff(job.attempts), claim := None, lease := None)
  }

  function Finish(db: Db, job: Job, error: Option<Error>, now: int): Db
    requires job.attempts >= 1
  {
    if job.index < |db.rows| && Live(db.rows[job.index], job)
    then db.(rows := db.rows[job.index := FinishedRow(db, db.rows[job.index], job, error, now)])
    else db
  }

  // ----- cancelling and enqueueing ----------------------------------------

  function Cancel(rows: seq<Row>, hit: Row -> bool): (out: seq<Row>)
    ensures |out| == |rows|
    ensures forall i :: 0 <= i < |rows| ==>
      out[i] == if rows[i].status == Pending && hit(rows[i]) then rows[i].(status := Cancelled) else rows[i]
  {
    seq(|rows|, i requires 0 <= i < |rows| =>
      if rows[i].status == Pending && hit(rows[i]) then rows[i].(status := Cancelled) else rows[i])
  }

  function NewRow(uid: nat, c: CustomerId, e: Option<EventId>, kind: Kind, to: Address, now: int): Row {
    Row(uid, c, e, kind, to, Pending, 0, None, None, now, now, None, None)
  }

  predicate SameNotice(r: Row, c: CustomerId, e: Option<EventId>, kind: Kind, to: Address) {
    e.Some? && r.customer == c && r.event == e && r.kind == kind && r.recipient == to
  }

  predicate Queued(rows: seq<Row>, c: CustomerId, e: Option<EventId>, kind: Kind, to: Address) {
    exists i :: 0 <= i < |rows| && SameNotice(rows[i], c, e, kind, to)
  }

  // INSERT ... ON CONFLICT(customer,event,kind,recipient) DO NOTHING; a row
  // without an event conflicts with nothing.
  function Enqueue(rows: seq<Row>, uid: nat, c: CustomerId, e: Option<EventId>, kind: Kind,
                   to: Address, now: int): seq<Row> {
    if Queued(rows, c, e, kind, to) then rows else rows + [NewRow(uid, c, e, kind, to, now)]
  }

  function EnqueueAll(rows: seq<Row>, uid: nat, c: CustomerId, e: Option<EventId>, kind: Kind,
                      to: seq<Address>, now: int): seq<Row>
    decreases |to|
  {
    if to == [] then rows
    else EnqueueAll(Enqueue(rows, uid, c, e, kind, to[0], now), uid + 1, c, e, kind, to[1..], now)
  }

  predicate AlarmNoticeOf(r: Row, c: CustomerId, e: EventId) {
    r.customer == c && r.event == Some(e) && r.kind == Alarm
  }

  function EnqueueAlarm(db: Db, uid: nat, c: CustomerId, e: EventId, now: int): Db {
    if Suppressed(db, c, Some(e), now) then db
    else if !PolicyOf(db, c).enabled then db
    else
      var policy, event := PolicyOf(db, c), db.events[e];
      if !event.live || event.startedAt < policy.enabledSince then db
      else if event.endedAt.None? then
        db.(rows := EnqueueAll(db.rows, uid, c, Some(e), Alarm, policy.recipients, now))
      else
        var rows := Cancel(db.rows, (r: Row) => AlarmNoticeOf(r, c, e));
        if policy.notifyRecovery
        then db.(rows := EnqueueAll(rows, uid, c, Some(e), Recovery, policy.recipients, now))
        else db.(rows := rows)
  }

  predicate SameOwner(a: Event, b: Event) {
    a.customer == b.customer && a.site == b.site && a.room == b.room && a.device == b.device
  }

  // Upload of one alarm event; None when the id belongs to another target.
  function StoreEvent(db: Db, e: EventId, incoming: Event): Option<Db> {
    if e !in db.events then Some(db.(events := db.events[e := incoming]))
    else
      var prior := db.events[e];
      if !SameOwner(prior, incoming) then None
      else Some(db.(events := db.events[e :=
        prior.(endedAt := if prior.endedAt.Some? then prior.endedAt else incoming.endedAt)]))
  }

  function Ingest(db: Db, uid: nat, e: EventId, incoming: Event, now: int): Db {
    match StoreEvent(db, e, incoming)
    case None => db
    case Some(stored) => EnqueueAlarm(stored, uid, incoming.customer, e, now)
  }

  datatype Item = Item(uid: nat, id: EventId, event: Event)

  // One request's events in turn; a conflict rolls all of them back.
  function IngestAll(db: Db, batch: seq<Item>, now: int): Option<Db>
    decreases |batch|
  {
    if batch == [] then Some(db)
    else if StoreEvent(db, batch[0].id, batch[0].event).None? then None
    else IngestAll(Ingest(db, batch[0].uid, batch[0].id, batch[0].event, now), batch[1..], now)
  }

  // ----- settings, tests, maintenance -------------------------------------

  function SaveSettings(db: Db, c: CustomerId, enabled: bool, to: seq<Address>, recovery: bool, now: int): Db {
    var prior := if c in db.policies then db.policies[c] else NO_POLICY.(enabledSince := now);
    var since := if enabled && !prior.enabled then now else prior.enabledSince;
    var policy := Policy(enabled, to, recovery, since, prior.lastTest);
    db.(policies := db.policies[c := policy],
        rows := Cancel(db.rows, (r: Row) => r.customer == c && Forbids(policy, r.kind, r.recipient)))
  }

  predicate TestAllowed(db: Db, c: CustomerId, now: int) {
    && c in db.policies && db.policies[c].recipients != []
    && (db.policies[c].lastTest.Some? ==> db.policies[c].lastTest.value <= now - 60)
  }

  function QueueTest(db: Db, uid: nat, c: CustomerId, now: int): Db
    requires TestAllowed(db, c, now)
  {
    db.(rows := EnqueueAll(db.rows, uid, c, None, Test, db.policies[c].recipients, now),
        policies := db.policies[c := db.policies[c].(lastTest := Some(now))])
  }

  predicate NoticeOnDevice(db: Db, r: Row, c: CustomerId, d: DeviceId) {
    && r.customer == c && r.event.Some? && r.event.value in db.events
    && db.events[r.event.value].customer == c && db.events[r.event.value].device == d
  }

  predicate MaintenanceAllowed(db: Db, d: DeviceId, endsAt: int, now: int) {
    && d in db.devices && db.devices[d].enabled
    && now + 60 <= endsAt <= now + 7 * 86400
    && forall i :: 0 <= i < |db.periods| && db.periods[i].device == d ==> PeriodEnd(db.periods[i]) <= now
  }

  function StartMaintenance(db: Db, d: DeviceId, endsAt: int, now: int): Db
    requires MaintenanceAllowed(db, d, endsAt, now)
  {
    db.(periods := db.periods + [Period(d, now, endsAt, None)],
        rows := Cancel(db.rows, (r: Row) => NoticeOnDevice(db, r, db.devices[d].customer, d)))
  }

  function EndPeriods(periods: seq<Period>, d: DeviceId, now: int): (out: seq<Period>)
    ensures |out| == |periods|
  {
    seq(|periods|, i requires 0 <= i < |periods| =>
      if periods[i].device == d && periods[i].endedAt.None? && periods[i].endsAt > now
      then periods[i].(endedAt := Some(now)) else periods[i])
  }

  function EndMaintenance(db: Db, d: DeviceId, now: int): Db {
    db.(periods := EndPeriods(db.periods, d, now))
  }

  // Deleting a device also ends its open maintenance period.
  function SetDevice(db: Db, d: DeviceId, enabled: bool, now: int): Db
    requires d in db.devices
  {
    db.(devices := db.devices[d := db.devices[d].(enabled := enabled)],
        periods := if enabled then db.periods else EndPeriods(db.periods, d, now))
  }

  // ----- the store --------------------------------------------------------

  class Store {
    var rows: seq<Row>
    var policies: map<CustomerId, Policy>
    var events: map<EventId, Event>
    var devices: map<DeviceId, Device>
    var periods: seq<Period>

    ghost function Tables(): Db
      reads this
    {
      Db(rows, policies, events, devices, periods)
    }

    predicate Blocked(c: CustomerId, e: Option<EventId>, kind: Kind, recipient: Address, now: int)
      reads this
      ensures Blocked(c, e, kind, recipient, now) == Withdrawn(Tables(), c, e, kind, recipient, now)
    {
      Withdrawn(Db(rows, policies, events, devices, periods), c, e, kind, recipient, now)
    }

    method FindFirst(now: int, locked: set<nat>) returns (found: Option<nat>)
      ensures found.None? ==> forall j: nat :: !Candidate(rows, now, locked, j)
      ensures found.Some? ==> IsFirst(rows, now, locked, found.value)
    {
      found := None;
      for i := 0 to |rows|
        invariant found.None? ==> forall j: nat :: j < i ==> !Candidate(rows, now, locked, j)
        invariant found.Some? ==> found.value < i && Candidate(rows, now, locked, found.value)
        invariant found.Some? ==>
          forall j: nat :: j < i && Candidate(rows, now, locked, j) ==> !Earlier(rows[j], rows[found.value])
      {
        if Candidate(rows, now, locked, i) && (found.None? || Earlier(rows[i], rows[found.value])) {
          found := Some(i);
        }
      }
    }

    method ClaimNotification(now: int, locked: set<nat>, token: Token) returns (out: Claimed, i: nat)
      modifies this`rows
      ensures out.Nothing? <==> forall j: nat :: !Candidate(old(rows), now, locked, j)
      ensures out.Nothing? ==> Tables() == old(Tables())
      ensures !out.Nothing? ==> IsFirst(old(rows), now, locked, i)
                                && Tables() == Claim(old(Tables()), i, now, token)
      ensures out.Handed? <==> !out.Nothing? && HandsOut(old(Tables()), old(rows)[i], now)
      ensures out.Handed? ==> out.job == JobOf(old(rows)[i], i, token)
    {
      i := 0;
      var found := FindFirst(now, locked);
      if found.None? {
        return Nothing, 0;
      }
      i := found.value;
      var job := rows[i];
      var cancelled := Blocked(job.customer, job.event, job.kind, job.recipient, now);
      if cancelled {
        var uncertain := job.status == Sending;
        rows := rows[i := job.(status := if uncertain then Failed else Cancelled,
                               lastError := if uncertain then Some(DeliveryOutcomeUnknown) else None,
                               claim := None, lease := None)];
        return Skipped, i;
      }
      if job.attempts >= MAX_ATTEMPTS {
        rows := rows[i := job.(status := Failed, lastError := Some(DeliveryOutcomeUnknown),
                               claim := None, lease := None)];
        return Skipped, i;
      }
      rows := rows[i := job.(status := Sending, attempts := job.attempts + 1, claim := Some(token),
                             lease := Some(now + LEASE_SECONDS))];
      out := Handed(Job(i, job.customer, job.event, job.kind, job.recipient, job.attempts + 1, token));
    }

    method FinishNotification(job: Job, error: Option<Error>, now: int) returns (done: bool)
      requires job.attempts >= 1
      modifies this`rows
      ensures Tables() == Finish(old(Tables()), job, error, now)
      ensures done <==> job.index < |old(rows)| && Live(old(rows)[job.index], job)
      ensures !done ==> rows == old(rows)
      ensures done ==> |rows| == |old(rows)| && (rows[job.index].status == Sent <==> error.None?)
      ensures done && error.None? ==> rows[job.index].sentAt == Some(now) && rows[job.index].lastError.None?
    {
      var status := if error.None? then Sent else if job.attempts >= MAX_ATTEMPTS then Failed else Pending;
      if error.Some? {
        var cancelled := Blocked(job.customer, job.event, job.kind, job.recipient, now);
        if cancelled {
          status := Cancelled;
        }
      }
      done := job.index < |rows| && rows[job.index].status == Sending && rows[job.index].claim == Some(job.token);
      if done {
        var row := rows[job.index];
        rows := rows[job.index := row.(status := status, lastError := error,
          sentAt := if error.None? then Some(now) else row.sentAt,
          nextAttempt := now + Backoff(job.attempts), claim := None, lease := None)];
      }
    }

    method InsertAll(uid: nat, c: CustomerId, e: Option<EventId>, kind: Kind, to: seq<Address>, now: int)
      modifies this`rows
      ensures rows == EnqueueAll(old(rows), uid, c, e, kind, to, now)
    {
      for k := 0 to |to|
        invariant EnqueueAll(rows, uid + k, c, e, kind, to[k..], now)
               == EnqueueAll(old(rows), uid, c, e, kind, to, now)
      {
        assert to[k..][0] == to[k] && to[k..][1..] == to[k + 1..];
        if !Queued(rows, c, e, kind, to[k]) {
          rows := rows + [NewRow(uid + k, c, e, kind, to[k], now)];
        }
      }
    }

    method EnqueueAlarmEvent(uid: nat, c: CustomerId, e: EventId, now: int)
      modifies this`rows
      ensures Tables() == EnqueueAlarm(old(Tables()), uid, c, e, now)
    {
      if Suppressed(Db(rows, policies, events, devices, periods), c, Some(e), now) {
        return;
      }
      if c !in policies || !policies[c].enabled {
        return;
      }
      var policy, event := policies[c], events[e];
      if !event.live || event.startedAt < policy.enabledSince {
        return;
      }
      var kind := if event.endedAt.Some? then Recovery else Alarm;
      if kind == Recovery {
        rows := Cancel(rows, (r: Row) => AlarmNoticeOf(r, c, e));
        if !policy.notifyRecovery {
          return;
        }
      }
      InsertAll(uid, c, Some(e), kind, policy.recipients, now);
    }

    method SaveSettingsFor(c: CustomerId, enabled: bool, to: seq<Address>, recovery: bool, now: int)
      returns (saved: bool)
      modifies this`rows, this`policies
      ensures saved <==> !(enabled && to == [])
      ensures Tables() == if saved then SaveSettings(old(Tables()), c, enabled, to, recovery, now) else old(Tables())
    {
      if enabled && to == [] {
        return false;
      }
      if c !in policies {
        policies := policies[c := NO_POLICY.(enabledSince := now)];
      }
      var before := policies[c];
      var since := if enabled && !before.enabled then now else before.enabledSince;
      var policy := Policy(enabled, to, recovery, since, before.lastTest);
      policies := policies[c := policy];
      rows := Cancel(rows, (r: Row) => r.customer == c
        && (r.recipient !in to || (r.kind != Test && !enabled) || (r.kind == Recovery && !recovery)));
      saved := true;
    }

    /** One uploaded event: stored or merged, then its notices. */
    method IngestAlarm(uid: nat, e: EventId, incoming: Event, now: int) returns (stored: bool)
      modifies this`rows, this`events
      ensures Tables() == Ingest(old(Tables()), uid, e, incoming, now)
      ensures stored <==> StoreEvent(old(Tables()), e, incoming).Some?
    {
      if e in events && !SameOwner(events[e], incoming) {
        return false;
      }
      if e in events {
        if events[e].endedAt.None? {
          events := events[e := events[e].(endedAt := incoming.endedAt)];
        } else {
          assert events == events[e := events[e]];
        }
      } else {
        events := events[e := incoming];
      }
      EnqueueAlarmEvent(uid, incoming.customer, e, now);
      stored := true;
    }

    /** The request: all of its events, or none when one of them conflicts. */
    method IngestAlarms(batch: seq<Item>, now: int) returns (accepted: bool)
      modifies this`rows, this`events
      ensures accepted <==> IngestAll(old(Tables()), batch, now).Some?
      ensures Tables() == if accepted then IngestAll(old(Tables()), batch, now).value else old(Tables())
    {
      hide Ingest, StoreEvent;
      var savedRows, savedEvents := rows, events;
      for k := 0 to |batch|
        invariant policies == old(policies) && devices == old(devices) && periods == old(periods)
        invariant IngestAll(Tables(), batch[k..], now) == IngestAll(old(Tables()), batch, now)
      {
        assert batch[k..][0] == batch[k] && batch[k..][1..] == batch[k + 1..];
        var stored := IngestAlarm(batch[k].uid, batch[k].id, batch[k].event, now);
        if !stored {
          rows, events := savedRows, savedEvents;
          return false;
        }
      }
      accepted := true;
    }

    method QueueTestFor(uid: nat, c: CustomerId, now: int) returns (queued: bool)
      modifies this`rows, this`policies
      ensures queued <==> TestAllowed(old(Tables()), c, now)
      ensures Tables() == if queued then QueueTest(old(Tables()), uid, c, now) else old(Tables())
    {
      if c !in policies || policies[c].recipients == []
         || (policies[c].lastTest.Some? && policies[c].lastTest.value > now - 60) {
        return false;
      }
      InsertAll(uid, c, None, Test, policies[c].recipients, now);
      policies := policies[c := policies[c].(lastTest := Some(now))];
      queued := true;
    }

    method StartMaintenanceOf(d: DeviceId, endsAt: int, now: int) returns (started: bool)
      modifies this`rows, this`periods
      ensures started <==> MaintenanceAllowed(old(Tables()), d, endsAt, now)
      ensures Tables() == if started then StartMaintenance(old(Tables()), d, endsAt, now) else old(Tables())
    {
      if !(now + 60 <= endsAt <= now + 7 * 86400) || d !in devices || !devices[d].enabled {
        return false;
      }
      if exists i :: 0 <= i < |periods| && periods[i].device == d && PeriodEnd(periods[i]) > now {
        return false;
      }
      periods := periods + [Period(d, now, endsAt, None)];
      var c, log := devices[d].customer, events;
      rows := Cancel(rows, (r: Row) => r.customer == c && r.event.Some? && r.event.value in log
        && log[r.event.value].customer == c && log[r.event.value].device == d);
      started := true;
    }

    method EndMaintenanceOf(d: DeviceId, now: int)
      modifies this`periods
      ensures Tables() == EndMaintenance(old(Tables()), d, now)
    {
      periods := EndPeriods(periods, d, now);
    }
  }
}
