/** Any number of workers on one queue: claims, hand-outs to the mail server,
    finishes, crashes, uploads, policy and maintenance changes and clock ticks in
    any order. A worker keeps its copy of a claimed row across other steps. */
module EmailProtocol {
  import opened Common
  import opened EmailStore

  datatype Worker = Idle | Busy(job: Job)

  // What has happened to one row so far: its newest token, how often it was
  // handed to a worker, and when last.
  datatype Past = Past(newest: Option<Token>, count: nat, at: int)

  datatype System = System(db: Db, now: int, workers: seq<Worker>, issued: set<Token>, past: seq<Past>)

  datatype Step =
    | Tick(until: int)
    | ClaimBy(w: nat, i: nat, locked: set<nat>, token: Token)
    | FinishBy(w: nat, error: Option<Error>)
    | Crash(w: nat)
    | Upload(uid: nat, e: EventId, incoming: Event)
    | Save(c: CustomerId, enabled: bool, to: seq<Address>, recovery: bool)
    | TestMail(uid: nat, c: CustomerId)
    | Maintain(d: DeviceId, endsAt: int)
    | Resume(d: DeviceId)
    | Switch(d: DeviceId, enabled: bool)

  ghost predicate Can(s: System, step: Step) {
    match step
    case Tick(until) => s.now <= until
    case ClaimBy(w, i, locked, token) =>
      && w < |s.workers| && s.workers[w].Idle? && token !in s.issued
      && IsFirst(s.db.rows, s.now, locked, i)
    case FinishBy(w, _) => w < |s.workers| && s.workers[w].Busy? && s.workers[w].job.attempts >= 1
    case Crash(w) => w < |s.workers|
    case Upload(_, _, _) => true
    case Save(c, enabled, to, _) => !(enabled && to == [])
    case TestMail(_, c) => TestAllowed(s.db, c, s.now)
    case Maintain(d, endsAt) => MaintenanceAllowed(s.db, d, endsAt, s.now)
    case Resume(_) => true
    case Switch(d, _) => d in s.db.devices
  }

  function Grow(past: seq<Past>, n: nat): (out: seq<Past>)
    requires |past| <= n
    ensures |out| == n && out[..|past|] == past
    ensures forall i :: |past| <= i < n ==> out[i] == Past(None, 0, 0)
  {
    past + seq(n - |past|, i => Past(None, 0, 0))
  }

  // The system after a transaction that may add rows but hands none out.
  ghost function Commit(s: System, db: Db): System {
    s.(db := db, past := if |s.past| <= |db.rows| then Grow(s.past, |db.rows|) else s.past)
  }

  ghost function Next(s: System, step: Step): System
    requires Can(s, step)
  {
    match step
    case Tick(until) => s.(now := until)
    case ClaimBy(w, i, _, token) =>
      var claimed := s.(db := Claim(s.db, i, s.now, token));
      if HandsOut(s.db, s.db.rows[i], s.now) && i < |s.past|
      then claimed.(workers := s.workers[w := Busy(JobOf(s.db.rows[i], i, token))],
                    issued := s.issued + {token},
                    past := s.past[i := Past(Some(token), s.past[i].count + 1, s.now)])
      else claimed
    case FinishBy(w, error) =>
      s.(db := Finish(s.db, s.workers[w].job, error, s.now), workers := s.workers[w := Idle])
    case Crash(w) => s.(workers := s.workers[w := Idle])
    case Upload(uid, e, incoming) => Commit(s, Ingest(s.db, uid, e, incoming, s.now))
    case Save(c, enabled, to, recovery) => Commit(s, SaveSettings(s.db, c, enabled, to, recovery, s.now))
    case TestMail(uid, c) => Commit(s, QueueTest(s.db, uid, c, s.now))
    case Maintain(d, endsAt) => Commit(s, StartMaintenance(s.db, d, endsAt, s.now))
    case Resume(d) => Commit(s, EndMaintenance(s.db, d, s.now))
    case Switch(d, enabled) => Commit(s, SetDevice(s.db, d, enabled, s.now))
  }

  ghost predicate Runs(s: System, steps: seq<Step>)
    decreases steps
  {
    steps == [] || (Can(s, steps[0]) && Runs(Next(s, steps[0]), steps[1..]))
  }

  ghost function Run(s: System, steps: seq<Step>): System
    requires Runs(s, steps)
    decreases steps
  {
    if steps == [] then s else Run(Next(s, steps[0]), steps[1..])
  }

  // ----- the invariant ----------------------------------------------------

  predicate RowInv(r: Row) {
    && (r.status == Sending <==> r.claim.Some?)
    && (r.status == Sending <==> r.lease.Some?)
    && r.attempts <= MAX_ATTEMPTS
    && (r.status == Pending ==> r.attempts < MAX_ATTEMPTS)
    && (r.kind != Test <==> r.event.Some?)
  }

  // Least time from a row's creation to its n-th hand-out.
  function Elapsed(n: nat): int {
    if n <= 1 then 0 else Elapsed(n - 1) + Gap(n - 1)
  }

  // Least time from the n-th hand-out of a row to the next one.
  function Gap(n: nat): int
    requires n >= 1
  {
    if Backoff(n) < LEASE_SECONDS then Backoff(n) else LEASE_SECONDS
  }

  predicate PastInv(r: Row, p: Past, now: int, issued: set<Token>) {
    && p.count == r.attempts
    && (p.count > 0 ==> p.newest.Some?)
    && (p.newest.Some? ==> p.newest.value in issued && p.at <= now && p.count > 0)
    && (r.claim.Some? ==> r.claim == p.newest)
    && r.createdAt <= now
    && (p.count > 0 ==> r.createdAt + Elapsed(p.count) <= p.at)
    && (r.lease.Some? ==> p.count > 0 && r.lease.value == p.at + LEASE_SECONDS)
    && (r.status == Pending && p.count > 0 ==> p.at + Backoff(p.count) <= r.nextAttempt)
  }

  ghost predicate RowsInv(s: System) {
    && |s.past| == |s.db.rows|
    && (forall i :: 0 <= i < |s.db.rows| ==> RowInv(s.db.rows[i]))
    && (forall i :: 0 <= i < |s.db.rows| ==> PastInv(s.db.rows[i], s.past[i], s.now, s.issued))
  }

  predicate SameTarget(job: Job, r: Row) {
    job.customer == r.customer && job.event == r.event && job.kind == r.kind && job.recipient == r.recipient
  }

  // No token was ever given out twice.
  ghost predicate TokensInv(s: System) {
    && |s.past| == |s.db.rows|
    && (forall i, j :: 0 <= i < |s.past| && 0 <= j < |s.past| && SameToken(s.past[i], s.past[j]) ==> i == j)
    && (forall w :: 0 <= w < |s.workers| && s.workers[w].Busy? ==> JobInv(s, s.workers[w].job))
    && (forall v, w :: 0 <= v < |s.workers| && 0 <= w < |s.workers| && SameClaim(s.workers[v], s.workers[w]) ==> v == w)
  }

  predicate SameToken(a: Past, b: Past) { a.newest.Some? && a.newest == b.newest }

  predicate SameClaim(a: Worker, b: Worker) { a.Busy? && b.Busy? && a.job.token == b.job.token }

  ghost predicate JobInv(s: System, job: Job)
    requires |s.past| == |s.db.rows|
  {
    && job.index < |s.db.rows| && job.token in s.issued && job.attempts >= 1
    && SameTarget(job, s.db.rows[job.index])
    && (s.past[job.index].newest == Some(job.token) ==> job.attempts == s.past[job.index].count)
    && (forall i :: 0 <= i < |s.past| && s.past[i].newest == Some(job.token) ==> i == job.index)
  }

  // A queued notice is one its customer's present settings allow.
  predicate PolicyInv(db: Db) {
    forall i :: 0 <= i < |db.rows| && db.rows[i].status == Pending ==>
      !Forbids(PolicyOf(db, db.rows[i].customer), db.rows[i].kind, db.rows[i].recipient)
  }

  predicate EventKnown(db: Db, r: Row) {
    r.event.Some? ==> Readable(db, r.customer, r.event)
  }

  // No queued alarm or recovery notice belongs to a device in maintenance, nor to an
  // event that overlaps any maintenance of its device.
  ghost predicate MaintenanceInv(db: Db, now: int) {
    && (forall i :: 0 <= i < |db.periods| ==> db.periods[i].startedAt <= now)
    && (forall i :: 0 <= i < |db.rows| ==> EventKnown(db, db.rows[i]))
    && (forall i :: 0 <= i < |db.rows| && db.rows[i].status == Pending && db.rows[i].event.Some? ==>
          !Maintained(db.periods, db.events[db.rows[i].event.value], now))
  }

  // One row per customer, event, kind and recipient.
  ghost predicate UniqueInv(rows: seq<Row>) {
    forall i, j :: 0 <= i < j < |rows| ==>
      !SameNotice(rows[j], rows[i].customer, rows[i].event, rows[i].kind, rows[i].recipient)
  }

  ghost predicate Inv(s: System) {
    RowsInv(s) && TokensInv(s) && PolicyInv(s.db) && MaintenanceInv(s.db, s.now) && UniqueInv(s.db.rows)
  }

  ghost predicate Init(s: System) {
    && s.db.rows == [] && s.past == [] && s.issued == {}
    && (forall w :: 0 <= w < |s.workers| ==> s.workers[w].Idle?)
    && (forall i :: 0 <= i < |s.db.periods| ==> s.db.periods[i].startedAt <= s.now)
  }

  // ----- how a transaction may change the rows ----------------------------

  // Old rows keep their place and are untouched or, if pending, cancelled; new
  // rows are fresh and pending.
  ghost predicate Evolves(rows: seq<Row>, rows': seq<Row>, now: int) {
    && |rows| <= |rows'|
    && (forall i :: 0 <= i < |rows| ==> KeptOrCancelled(rows[i], rows'[i]))
    && (forall i :: |rows| <= i < |rows'| ==> Fresh(rows'[i], now))
  }

  predicate KeptOrCancelled(r: Row, r': Row) {
    r' == r || (r.status == Pending && r' == r.(status := Cancelled))
  }

  predicate Fresh(r: Row, now: int) {
    r == NewRow(r.uid, r.customer, r.event, r.kind, r.recipient, now)
  }

  predicate FreshFor(r: Row, c: CustomerId, e: Option<EventId>, kind: Kind, to: seq<Address>, now: int) {
    Fresh(r, now) && r.customer == c && r.event == e && r.kind == kind && r.recipient in to
  }

  lemma {:induction false} EnqueueAllEvolves(rows: seq<Row>, uid: nat, c: CustomerId, e: Option<EventId>,
                                             kind: Kind, to: seq<Address>, now: int)
    ensures var out := EnqueueAll(rows, uid, c, e, kind, to, now);
      && |rows| <= |out| && out[..|rows|] == rows
      && (forall i :: |rows| <= i < |out| ==> FreshFor(out[i], c, e, kind, to, now))
      && (UniqueInv(rows) ==> UniqueInv(out))
    decreases |to|
  {
    if to != [] {
      var rows' := Enqueue(rows, uid, c, e, kind, to[0], now);
      EnqueueAllEvolves(rows', uid + 1, c, e, kind, to[1..], now);
      var out := EnqueueAll(rows, uid, c, e, kind, to, now);
      assert out[..|rows|] == out[..|rows'|][..|rows|];
      forall i | |rows| <= i < |out| ensures FreshFor(out[i], c, e, kind, to, now) {
        assert i < |rows'| ==> out[i] == out[..|rows'|][i];
      }
    }
  }

  // A new notice of an event: allowed, not suppressed, and an alarm exactly while
  // the persisted event is open.
  predicate NoticeFor(db: Db, r: Row, c: CustomerId, e: EventId, now: int) {
    && Fresh(r, now) && r.customer == c && r.event == Some(e)
    && !Suppressed(db, c, Some(e), now)
    && r.kind != Test && (r.kind == Alarm <==> db.events[e].endedAt.None?)
    && !Forbids(PolicyOf(db, c), r.kind, r.recipient)
  }

  // The rows after EnqueueAlarm, told apart by what they are.
  lemma EnqueueAlarmEvolves(db: Db, uid: nat, c: CustomerId, e: EventId, now: int)
    ensures var out := EnqueueAlarm(db, uid, c, e, now);
      && out == db.(rows := out.rows)
      && Evolves(db.rows, out.rows, now)
      && (UniqueInv(db.rows) ==> UniqueInv(out.rows))
      && (forall i :: |db.rows| <= i < |out.rows| ==> NoticeFor(db, out.rows[i], c, e, now))
  {
    if !Suppressed(db, c, Some(e), now) && PolicyOf(db, c).enabled {
      var to := PolicyOf(db, c).recipients;
      EnqueueAllEvolves(db.rows, uid, c, Some(e), Alarm, to, now);
      var cancelled := Cancel(db.rows, (r: Row) => AlarmNoticeOf(r, c, e));
      CancelKeepsUnique(db.rows, cancelled);
      EnqueueAllEvolves(cancelled, uid, c, Some(e), Recovery, to, now);
      var out := EnqueueAlarm(db, uid, c, e, now).rows;
      if db.events[e].endedAt.Some? && |out| > |cancelled| {
        assert forall i :: 0 <= i < |cancelled| ==> out[i] == out[..|cancelled|][i];
      }
      if db.events[e].endedAt.None? {
        assert forall i :: 0 <= i < |db.rows| && |db.rows| <= |out| ==> out[i] == out[..|db.rows|][i];
      }
    }
  }

  predicate SameAddressee(a: Row, b: Row) {
    a.customer == b.customer && a.event == b.event && a.kind == b.kind && a.recipient == b.recipient
  }

  lemma CancelKeepsUnique(rows: seq<Row>, rows': seq<Row>)
    requires |rows| == |rows'| && forall i :: 0 <= i < |rows| ==> SameAddressee(rows[i], rows'[i])
    ensures UniqueInv(rows) ==> UniqueInv(rows')
  {
  }

  // ----- every step keeps the invariant -----------------------------------

  predicate Targeted(rows: seq<Row>, n: nat) {
    forall i :: n <= i < |rows| ==> (rows[i].kind != Test <==> rows[i].event.Some?)
  }

  lemma CommitRows(s: System, db: Db)
    requires RowsInv(s)
    requires Evolves(s.db.rows, db.rows, s.now) && Targeted(db.rows, |s.db.rows|)
    ensures RowsInv(Commit(s, db))
  {
  }

  lemma CommitTokens(s: System, db: Db)
    requires RowsInv(s) && TokensInv(s)
    requires Evolves(s.db.rows, db.rows, s.now)
    ensures TokensInv(Commit(s, db))
  {
    var t := Commit(s, db);
    forall w | 0 <= w < |t.workers| && t.workers[w].Busy? ensures JobInv(t, t.workers[w].job) {
      assert JobInv(s, s.workers[w].job);
    }
  }

  lemma ClaimRows(s: System, step: Step)
    requires RowsInv(s) && step.ClaimBy? && Can(s, step)
    ensures RowsInv(Next(s, step))
  {
    hide Backoff, Elapsed;
    var r := s.db.rows[step.i];
    var p := s.past[step.i];
    assert RowInv(r) && PastInv(r, p, s.now, s.issued);
    if HandsOut(s.db, r, s.now) {
      TakeKeeps(r, p, s.now, s.issued, step.token);
    }
  }

  /** A due row waited at least the gap since its last hand-out. */
  lemma DueWaited(r: Row, p: Past, now: int, issued: set<Token>)
    requires RowInv(r) && PastInv(r, p, now, issued) && Eligible(r, now) && p.count > 0
    ensures p.at + Gap(p.count) <= now
  {
    hide Backoff, Elapsed;
  }

  lemma TakeKeeps(r: Row, p: Past, now: int, issued: set<Token>, token: Token)
    requires RowInv(r) && PastInv(r, p, now, issued) && Eligible(r, now) && r.attempts < MAX_ATTEMPTS
    ensures RowInv(Take(r, now, token))
    ensures PastInv(Take(r, now, token), Past(Some(token), p.count + 1, now), now, issued + {token})
  {
    hide Backoff;
    if p.count > 0 {
      DueWaited(r, p, now, issued);
      assert Elapsed(p.count + 1) == Elapsed(p.count) + Gap(p.count);
    } else {
      assert Elapsed(1) == 0;
    }
  }

  lemma ClaimTokens(s: System, step: Step)
    requires RowsInv(s) && TokensInv(s) && step.ClaimBy? && Can(s, step)
    ensures TokensInv(Next(s, step))
  {
    var t := Next(s, step);
    forall w | 0 <= w < |t.workers| && t.workers[w].Busy? ensures JobInv(t, t.workers[w].job) {
      if t.workers[w] == s.workers[w] {
        assert JobInv(s, s.workers[w].job);
      }
    }
  }

  lemma ClaimUnique(s: System, step: Step)
    requires UniqueInv(s.db.rows) && step.ClaimBy? && Can(s, step)
    ensures UniqueInv(Next(s, step).db.rows)
  {
    hide UniqueInv, RowWithdrawn;
    CancelKeepsUnique(s.db.rows, Next(s, step).db.rows);
  }

  lemma ClaimRest(s: System, step: Step)
    requires Inv(s) && step.ClaimBy? && Can(s, step)
    ensures PolicyInv(Next(s, step).db) && MaintenanceInv(Next(s, step).db, s.now)
    ensures UniqueInv(Next(s, step).db.rows)
  {
    hide UniqueInv, Maintained, RowsInv, TokensInv;
    ClaimUnique(s, step);
    var t := Next(s, step);
    assert t.db == s.db.(rows := t.db.rows);
    forall i | 0 <= i < |t.db.rows|
      ensures EventKnown(t.db, t.db.rows[i])
      ensures t.db.rows[i].status == Pending ==> t.db.rows[i] == s.db.rows[i]
      ensures t.db.rows[i].status == Pending && t.db.rows[i].event.Some? ==>
        !Maintained(t.db.periods, t.db.events[t.db.rows[i].event.value], s.now)
    {
      assert EventKnown(s.db, s.db.rows[i]);
    }
  }

  lemma FinishRows(s: System, step: Step)
    requires RowsInv(s) && TokensInv(s) && step.FinishBy? && Can(s, step)
    ensures RowsInv(Next(s, step))
  {
    assert JobInv(s, s.workers[step.w].job);
  }

  lemma FinishTokens(s: System, step: Step)
    requires RowsInv(s) && TokensInv(s) && step.FinishBy? && Can(s, step)
    ensures TokensInv(Next(s, step))
  {
    var t := Next(s, step);
    assert JobInv(s, s.workers[step.w].job);
    forall w | 0 <= w < |t.workers| && t.workers[w].Busy? ensures JobInv(t, t.workers[w].job) {
      assert JobInv(s, s.workers[w].job);
    }
  }

  lemma FinishRest(s: System, step: Step)
    requires Inv(s) && step.FinishBy? && Can(s, step)
    ensures PolicyInv(Next(s, step).db) && MaintenanceInv(Next(s, step).db, s.now)
    ensures UniqueInv(Next(s, step).db.rows)
  {
    var t, job := Next(s, step), s.workers[step.w].job;
    assert JobInv(s, job);
    assert t.db == s.db.(rows := t.db.rows);
    forall i | 0 <= i < |t.db.rows|
      ensures EventKnown(t.db, t.db.rows[i])
      ensures t.db.rows[i].status == Pending ==>
        t.db.rows[i] == s.db.rows[i] || !RowWithdrawn(s.db, t.db.rows[i], s.now)
      ensures t.db.rows[i].status == Pending && t.db.rows[i].event.Some? ==>
        !Maintained(t.db.periods, t.db.events[t.db.rows[i].event.value], s.now)
    {
      assert EventKnown(s.db, s.db.rows[i]) && RowInv(s.db.rows[i]);
    }
  }

  lemma MaintainedShrinks(periods: seq<Period>, periods': seq<Period>, e: Event, e': Event, now: int, now': int)
    requires |periods| == |periods'| && now <= now'
    requires e' == e || (e.endedAt.None? && e' == e.(endedAt := e'.endedAt))
    requires forall i :: 0 <= i < |periods| ==> periods[i].startedAt <= now
    requires forall i :: 0 <= i < |periods| ==>
      periods'[i].device == periods[i].device && periods'[i].startedAt == periods[i].startedAt
      && PeriodEnd(periods'[i]) <= PeriodEnd(periods[i])
    ensures Maintained(periods', e', now') ==> Maintained(periods, e, now)
  {
    if Maintained(periods', e', now') {
      var i :| 0 <= i < |periods'| && periods'[i].device == e'.device
        && (Current(periods'[i], now') || Overlaps(periods'[i], e'));
      assert Current(periods[i], now) || Overlaps(periods[i], e);
    }
  }

  lemma TickKeeps(s: System, until: int)
    requires Inv(s) && s.now <= until
    ensures Inv(Next(s, Tick(until)))
  {
    var t := Next(s, Tick(until));
    assert RowsInv(t);
    forall w | 0 <= w < |t.workers| && t.workers[w].Busy? ensures JobInv(t, t.workers[w].job) {
      assert JobInv(s, s.workers[w].job);
    }
    forall i | 0 <= i < |t.db.rows| && t.db.rows[i].status == Pending && t.db.rows[i].event.Some?
      ensures !Maintained(t.db.periods, t.db.events[t.db.rows[i].event.value], t.now)
    {
      assert EventKnown(s.db, s.db.rows[i]);
      var e := t.db.events[t.db.rows[i].event.value];
      MaintainedShrinks(s.db.periods, t.db.periods, e, e, s.now, t.now);
    }
  }

  lemma CrashKeeps(s: System, w: nat)
    requires Inv(s) && w < |s.workers|
    ensures Inv(Next(s, Crash(w)))
  {
    var t := Next(s, Crash(w));
    forall v | 0 <= v < |t.workers| && t.workers[v].Busy? ensures JobInv(t, t.workers[v].job) {
      assert JobInv(s, s.workers[v].job);
    }
  }

  lemma UploadKeeps(s: System, uid: nat, e: EventId, incoming: Event)
    requires Inv(s)
    ensures Inv(Next(s, Upload(uid, e, incoming)))
  {
    var stored := StoreEvent(s.db, e, incoming);
    if stored.None? {
      CommitRows(s, s.db);
      CommitTokens(s, s.db);
    } else {
      var db := EnqueueAlarm(stored.value, uid, incoming.customer, e, s.now);
      EnqueueAlarmEvolves(stored.value, uid, incoming.customer, e, s.now);
      CommitRows(s, db);
      CommitTokens(s, db);
      UploadRest(s, db, stored.value, e, incoming);
    }
  }

  lemma UploadRest(s: System, db: Db, stored: Db, e: EventId, incoming: Event)
    requires Inv(s) && StoreEvent(s.db, e, incoming) == Some(stored)
    requires db == stored.(rows := db.rows) && Evolves(s.db.rows, db.rows, s.now)
    requires forall i :: |s.db.rows| <= i < |db.rows| ==> NoticeFor(stored, db.rows[i], incoming.customer, e, s.now)
    ensures PolicyInv(db) && MaintenanceInv(db, s.now)
  {
    forall i | 0 <= i < |db.rows|
      ensures EventKnown(db, db.rows[i])
      ensures db.rows[i].status == Pending && db.rows[i].event.Some? ==>
        !Maintained(db.periods, db.events[db.rows[i].event.value], s.now)
    {
      if i < |s.db.rows| {
        assert EventKnown(s.db, s.db.rows[i]) && KeptOrCancelled(s.db.rows[i], db.rows[i]);
        if db.rows[i].event.Some? {
          var x := db.rows[i].event.value;
          MaintainedShrinks(s.db.periods, db.periods, s.db.events[x], db.events[x], s.now, s.now);
        }
      } else {
        assert NoticeFor(stored, db.rows[i], incoming.customer, e, s.now);
      }
    }
    forall i | 0 <= i < |db.rows| && db.rows[i].status == Pending
      ensures !Forbids(PolicyOf(db, db.rows[i].customer), db.rows[i].kind, db.rows[i].recipient)
    {
      if i < |s.db.rows| {
        assert KeptOrCancelled(s.db.rows[i], db.rows[i]);
      } else {
        assert NoticeFor(stored, db.rows[i], incoming.customer, e, s.now);
      }
    }
  }

  lemma SaveKeeps(s: System, step: Step)
    requires Inv(s) && step.Save? && Can(s, step)
    ensures Inv(Next(s, step))
  {
    var db := SaveSettings(s.db, step.c, step.enabled, step.to, step.recovery, s.now);
    CommitRows(s, db);
    CommitTokens(s, db);
    CancelKeepsUnique(s.db.rows, db.rows);
    assert forall i :: 0 <= i < |s.db.rows| ==>
      EventKnown(s.db, s.db.rows[i]) && KeptOrCancelled(s.db.rows[i], db.rows[i]);
  }

  lemma TestKeeps(s: System, step: Step)
    requires Inv(s) && step.TestMail? && Can(s, step)
    ensures Inv(Next(s, step))
  {
    var db := QueueTest(s.db, step.uid, step.c, s.now);
    var n := |s.db.rows|;
    EnqueueAllEvolves(s.db.rows, step.uid, step.c, None, Test, s.db.policies[step.c].recipients, s.now);
    assert forall i :: 0 <= i < n ==> db.rows[i] == db.rows[..n][i];
    CommitRows(s, db);
    CommitTokens(s, db);
    TestRest(s, db, step.c);
  }

  lemma TestRest(s: System, db: Db, c: CustomerId)
    requires Inv(s) && c in s.db.policies && |s.db.rows| <= |db.rows|
    requires db == s.db.(rows := db.rows, policies := s.db.policies[c := s.db.policies[c].(lastTest := Some(s.now))])
    requires forall i :: 0 <= i < |s.db.rows| ==> db.rows[i] == s.db.rows[i]
    requires forall i :: |s.db.rows| <= i < |db.rows| ==>
      FreshFor(db.rows[i], c, None, Test, s.db.policies[c].recipients, s.now)
    ensures PolicyInv(db) && MaintenanceInv(db, s.now)
  {
    forall i | 0 <= i < |db.rows|
      ensures EventKnown(db, db.rows[i])
      ensures db.rows[i].status == Pending && db.rows[i].event.Some? ==>
        !Maintained(db.periods, db.events[db.rows[i].event.value], s.now)
    {
      if i < |s.db.rows| {
        assert EventKnown(s.db, s.db.rows[i]);
      } else {
        assert FreshFor(db.rows[i], c, None, Test, s.db.policies[c].recipients, s.now);
      }
    }
    assert forall i :: |s.db.rows| <= i < |db.rows| ==>
      FreshFor(db.rows[i], c, None, Test, s.db.policies[c].recipients, s.now);
  }

  lemma MaintainKeeps(s: System, step: Step)
    requires Inv(s) && step.Maintain? && Can(s, step)
    ensures Inv(Next(s, step))
  {
    var db := StartMaintenance(s.db, step.d, step.endsAt, s.now);
    CommitRows(s, db);
    CommitTokens(s, db);
    CancelKeepsUnique(s.db.rows, db.rows);
    forall i | 0 <= i < |db.rows|
      ensures EventKnown(db, db.rows[i])
      ensures db.rows[i].status == Pending && db.rows[i].event.Some? ==>
        !Maintained(db.periods, db.events[db.rows[i].event.value], s.now)
    {
      assert EventKnown(s.db, s.db.rows[i]) && KeptOrCancelled(s.db.rows[i], db.rows[i]);
      if db.rows[i].status == Pending && db.rows[i].event.Some? {
        var e := db.events[db.rows[i].event.value];
        assert e.device != step.d;
        assert Maintained(db.periods, e, s.now) ==> Maintained(s.db.periods, e, s.now);
      }
    }
  }

  lemma PeriodsKeep(s: System, db: Db)
    requires Inv(s)
    requires db == s.db.(periods := db.periods, devices := db.devices)
    requires db.devices.Keys == s.db.devices.Keys
    requires forall d :: d in s.db.devices ==> db.devices[d].customer == s.db.devices[d].customer
    requires |db.periods| == |s.db.periods|
    requires forall i :: 0 <= i < |db.periods| ==>
      db.periods[i].device == s.db.periods[i].device && db.periods[i].startedAt == s.db.periods[i].startedAt
      && PeriodEnd(db.periods[i]) <= PeriodEnd(s.db.periods[i])
    ensures Inv(Commit(s, db))
  {
    CommitRows(s, db);
    CommitTokens(s, db);
    forall i | 0 <= i < |db.rows|
      ensures EventKnown(db, db.rows[i])
      ensures db.rows[i].status == Pending && db.rows[i].event.Some? ==>
        !Maintained(db.periods, db.events[db.rows[i].event.value], s.now)
    {
      assert EventKnown(s.db, s.db.rows[i]);
      if db.rows[i].event.Some? {
        var e := db.events[db.rows[i].event.value];
        MaintainedShrinks(s.db.periods, db.periods, e, e, s.now, s.now);
      }
    }
  }

  /** Every step of every interleaving keeps the invariant. */
  lemma StepKeepsInv(s: System, step: Step)
    requires Inv(s) && Can(s, step)
    ensures Inv(Next(s, step))
  {
    match step
    case Tick(until) => TickKeeps(s, until);
    case ClaimBy(_, _, _, _) =>
      ClaimRows(s, step);
      ClaimTokens(s, step);
      ClaimRest(s, step);
    case FinishBy(_, _) =>
      FinishRows(s, step);
      FinishTokens(s, step);
      FinishRest(s, step);
    case Crash(w) => CrashKeeps(s, w);
    case Upload(uid, e, incoming) => UploadKeeps(s, uid, e, incoming);
    case Save(_, _, _, _) => SaveKeeps(s, step);
    case TestMail(_, _) => TestKeeps(s, step);
    case Maintain(_, _) => MaintainKeeps(s, step);
    case Resume(d) => PeriodsKeep(s, EndMaintenance(s.db, d, s.now));
    case Switch(d, enabled) => PeriodsKeep(s, SetDevice(s.db, d, enabled, s.now));
  }

  lemma {:induction false} RunKeepsInv(s: System, steps: seq<Step>)
    requires Inv(s) && Runs(s, steps)
    ensures Inv(Run(s, steps))
    decreases steps
  {
    if steps != [] {
      StepKeepsInv(s, steps[0]);
      RunKeepsInv(Next(s, steps[0]), steps[1..]);
    }
  }
}
