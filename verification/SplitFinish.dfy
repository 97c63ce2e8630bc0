/** The queue when a finish is two steps: it reads the settings, the event, the device
    and its maintenance, and writes the row later, with anything committed in between. */
module SplitFinish {
  import opened Common
  import opened EmailStore
  import opened EmailProtocol
  import opened EmailTheorems

  // What a finish has decided from its reads, its transaction's clock, and whether
  // it holds the share lock on its customer's settings row.
  datatype Verdict = Verdict(status: Status, error: Option<Error>, at: int, locks: bool)

  // verdicts: of the workers whose finish has read and not yet written.
  datatype Race = Race(s: System, verdicts: map<nat, Verdict>)

  datatype RaceStep = Base(step: Step) | Read(w: nat, error: Option<Error>) | Write(w: nat)

  predicate Working(s: System, w: nat) {
    w < |s.workers| && s.workers[w].Busy? && s.workers[w].job.attempts >= 1
  }

  // The settings row is share-locked by a finish under way.
  ghost predicate Locked(r: Race, c: CustomerId) {
    exists w :: w in r.verdicts && Working(r.s, w) && r.verdicts[w].locks && r.s.workers[w].job.customer == c
  }

  ghost predicate MayStep(r: Race, step: RaceStep) {
    match step
    case Base(b) => Can(r.s, b) && !b.FinishBy? && (b.Save? || b.TestMail? ==> !Locked(r, b.c))
    case Read(w, _) => Working(r.s, w) && w !in r.verdicts
    case Write(w) => Working(r.s, w) && w in r.verdicts
  }

  // The UPDATE that only the live claim's token matches.
  function Written(db: Db, job: Job, v: Verdict): Db
    requires job.attempts >= 1
  {
    if job.index < |db.rows| && Live(db.rows[job.index], job) then
      var row := db.rows[job.index];
      db.(rows := db.rows[job.index := row.(status := v.status, lastError := v.error,
        sentAt := if v.error.None? then Some(v.at) else row.sentAt,
        nextAttempt := v.at + Backoff(job.attempts), claim := None, lease := None)])
    else db
  }

  ghost function VerdictOf(s: System, job: Job, error: Option<Error>): Verdict {
    Verdict(FinishStatus(s.db, job, error, s.now), error, s.now, error.Some? && job.customer in s.db.policies)
  }

  ghost function After(r: Race, step: RaceStep): Race
    requires MayStep(r, step)
  {
    match step
    case Base(b) => Race(Next(r.s, b), if b.Crash? then r.verdicts - {b.w} else r.verdicts)
    case Read(w, error) => r.(verdicts := r.verdicts[w := VerdictOf(r.s, r.s.workers[w].job, error)])
    case Write(w) =>
      var db := Written(r.s.db, r.s.workers[w].job, r.verdicts[w]);
      Race(r.s.(db := db, workers := r.s.workers[w := Idle]), r.verdicts - {w})
  }

  /** Without anything in between, the two halves are the one-step finish. */
  lemma UndisturbedIsFinish(r: Race, w: nat, error: Option<Error>)
    requires MayStep(r, Read(w, error))
    ensures MayStep(After(r, Read(w, error)), Write(w)) && Can(r.s, FinishBy(w, error))
    ensures After(After(r, Read(w, error)), Write(w)) == Race(Next(r.s, FinishBy(w, error)), r.verdicts)
  {
    assert r.verdicts[w := After(r, Read(w, error)).verdicts[w]] - {w} == r.verdicts;
  }

  ghost predicate RaceRuns(r: Race, steps: seq<RaceStep>)
    decreases |steps|
  {
    steps == [] || (MayStep(r, steps[0]) && RaceRuns(After(r, steps[0]), steps[1..]))
  }

  ghost function RaceRun(r: Race, steps: seq<RaceStep>): Race
    requires RaceRuns(r, steps)
    decreases |steps|
  {
    if steps == [] then r else RaceRun(After(r, steps[0]), steps[1..])
  }

  // ----- what still holds -------------------------------------------------

  predicate Known(db: Db) { forall i :: 0 <= i < |db.rows| ==> EventKnown(db, db.rows[i]) }

  ghost predicate VerdictSound(s: System, job: Job, v: Verdict)
    requires |s.past| == |s.db.rows|
  {
    && v.status != Sending && v.at <= s.now
    && (v.status == Pending ==> v.locks && job.attempts < MAX_ATTEMPTS)
    && (v.status == Pending ==> !Forbids(PolicyOf(s.db, job.customer), job.kind, job.recipient))
    && (job.index < |s.past| && s.past[job.index].newest == Some(job.token) ==> s.past[job.index].at <= v.at)
  }

  ghost predicate Sound(r: Race)
    requires |r.s.past| == |r.s.db.rows|
  {
    forall w :: w in r.verdicts ==> Working(r.s, w) && VerdictSound(r.s, r.s.workers[w].job, r.verdicts[w])
  }

  ghost predicate Core(r: Race) {
    RowsInv(r.s) && TokensInv(r.s) && Known(r.s.db) && PolicyInv(r.s.db) && UniqueInv(r.s.db.rows) && Sound(r)
  }

  // The transactions that only cancel pending rows and append fresh ones.
  predicate Plain(step: Step) {
    step.Upload? || step.Save? || step.TestMail? || step.Maintain? || step.Resume? || step.Switch?
  }

  lemma PlainEvolves(s: System, step: Step)
    requires Can(s, step) && Plain(step)
    ensures var t := Next(s, step);
      t == Commit(s, t.db) && Evolves(s.db.rows, t.db.rows, s.now) && Targeted(t.db.rows, |s.db.rows|)
        && (UniqueInv(s.db.rows) ==> UniqueInv(t.db.rows))
  {
    if step.Upload? {
      var stored := StoreEvent(s.db, step.e, step.incoming);
      if stored.Some? {
        EnqueueAlarmEvolves(stored.value, step.uid, step.incoming.customer, step.e, s.now);
        var out := EnqueueAlarm(stored.value, step.uid, step.incoming.customer, step.e, s.now).rows;
        assert forall i :: |s.db.rows| <= i < |out| ==>
          NoticeFor(stored.value, out[i], step.incoming.customer, step.e, s.now);
      }
    } else if step.TestMail? {
      var to := s.db.policies[step.c].recipients;
      EnqueueAllEvolves(s.db.rows, step.uid, step.c, None, Test, to, s.now);
      var out := QueueTest(s.db, step.uid, step.c, s.now).rows;
      assert forall i :: 0 <= i < |s.db.rows| ==> out[i] == out[..|s.db.rows|][i];
      assert forall i :: |s.db.rows| <= i < |out| ==> FreshFor(out[i], step.c, None, Test, to, s.now);
    }
  }

  // Events, devices and their owners only grow, and an end time stays.
  predicate Keeps(db: Db, db': Db) {
    && (forall e :: e in db.events ==> e in db'.events && EventStays(db.events[e], db'.events[e]))
    && (forall d :: d in db.devices ==> d in db'.devices && db'.devices[d].customer == db.devices[d].customer)
  }

  predicate EventStays(e: Event, e': Event) {
    e'.customer == e.customer && e'.device == e.device && (e.endedAt.Some? ==> e'.endedAt == e.endedAt)
  }

  lemma StepKeepsEvents(s: System, step: Step)
    requires Can(s, step)
    ensures Keeps(s.db, Next(s, step).db)
  {
    if step.Upload? {
      var stored := StoreEvent(s.db, step.e, step.incoming);
      if stored.Some? {
        EnqueueAlarmEvolves(stored.value, step.uid, step.incoming.customer, step.e, s.now);
      }
    }
  }

  // A new notice has a known event, and its customer's settings allow it.
  lemma NewRows(s: System, step: Step)
    requires Can(s, step) && Plain(step)
    ensures var t := Next(s, step); forall i :: |s.db.rows| <= i < |t.db.rows| ==>
      EventKnown(t.db, t.db.rows[i])
      && !Forbids(PolicyOf(t.db, t.db.rows[i].customer), t.db.rows[i].kind, t.db.rows[i].recipient)
  {
    var t := Next(s, step);
    if step.Upload? {
      var stored := StoreEvent(s.db, step.e, step.incoming);
      if stored.Some? {
        EnqueueAlarmEvolves(stored.value, step.uid, step.incoming.customer, step.e, s.now);
        assert forall i :: |s.db.rows| <= i < |t.db.rows| ==>
          NoticeFor(stored.value, t.db.rows[i], step.incoming.customer, step.e, s.now);
      }
    } else if step.TestMail? {
      var to := s.db.policies[step.c].recipients;
      EnqueueAllEvolves(s.db.rows, step.uid, step.c, None, Test, to, s.now);
      assert forall i :: |s.db.rows| <= i < |t.db.rows| ==> FreshFor(t.db.rows[i], step.c, None, Test, to, s.now);
    }
  }

  // Rows keep their place and their target.
  predicate RowsStay(rows: seq<Row>, rows': seq<Row>) {
    |rows| <= |rows'| && forall i :: 0 <= i < |rows| ==> SameNoticeTarget(rows[i], rows'[i])
  }

  lemma KnownKept(db: Db, db': Db)
    requires Known(db) && Keeps(db, db') && RowsStay(db.rows, db'.rows)
    requires forall i :: |db.rows| <= i < |db'.rows| ==> EventKnown(db', db'.rows[i])
    ensures Known(db')
  {
    forall i | 0 <= i < |db'.rows| ensures EventKnown(db', db'.rows[i]) {
      if i < |db.rows| {
        assert EventKnown(db, db.rows[i]) && SameNoticeTarget(db.rows[i], db'.rows[i]);
      }
    }
  }

  lemma PolicyOfOld(s: System, step: Step, i: nat)
    requires Can(s, step) && Plain(step) && PolicyInv(s.db) && i < |s.db.rows|
    requires i < |Next(s, step).db.rows| && KeptOrCancelled(s.db.rows[i], Next(s, step).db.rows[i])
    requires Next(s, step).db.rows[i].status == Pending
    ensures var db := Next(s, step).db;
      !Forbids(PolicyOf(db, db.rows[i].customer), db.rows[i].kind, db.rows[i].recipient)
  {
    if step.Upload? {
      var stored := StoreEvent(s.db, step.e, step.incoming);
      if stored.Some? {
        EnqueueAlarmEvolves(stored.value, step.uid, step.incoming.customer, step.e, s.now);
      }
    }
  }

  lemma PlainPolicy(s: System, step: Step)
    requires Can(s, step) && Plain(step) && PolicyInv(s.db)
    ensures PolicyInv(Next(s, step).db)
  {
    hide Next, Can, Forbids;
    var t := Next(s, step);
    PlainEvolves(s, step);
    NewRows(s, step);
    forall i | 0 <= i < |t.db.rows| && t.db.rows[i].status == Pending
      ensures !Forbids(PolicyOf(t.db, t.db.rows[i].customer), t.db.rows[i].kind, t.db.rows[i].recipient)
    {
      if i < |s.db.rows| { PolicyOfOld(s, step, i); }
    }
  }

  lemma PlainKeeps(s: System, step: Step)
    requires Can(s, step) && Plain(step)
    requires RowsInv(s) && TokensInv(s) && Known(s.db) && PolicyInv(s.db) && UniqueInv(s.db.rows)
    ensures var t := Next(s, step);
      RowsInv(t) && TokensInv(t) && Known(t.db) && PolicyInv(t.db) && UniqueInv(t.db.rows)
  {
    hide Next, RowsInv, TokensInv, PolicyInv, UniqueInv, Known, Keeps;
    var t := Next(s, step);
    PlainEvolves(s, step);
    PlainPolicy(s, step);
    StepKeepsEvents(s, step);
    NewRows(s, step);
    CommitRows(s, t.db);
    CommitTokens(s, t.db);
    KnownKept(s.db, t.db);
  }

  lemma ClaimLeaves(s: System, step: Step)
    requires Can(s, step) && step.ClaimBy? && PolicyInv(s.db)
    ensures var db := Next(s, step).db;
      PolicyInv(db) && db == s.db.(rows := db.rows) && RowsStay(s.db.rows, db.rows) && |db.rows| == |s.db.rows|
  {
    hide RowWithdrawn;
  }

  lemma ClaimKeeps(s: System, step: Step)
    requires Can(s, step) && step.ClaimBy?
    requires RowsInv(s) && TokensInv(s) && Known(s.db) && PolicyInv(s.db) && UniqueInv(s.db.rows)
    ensures var t := Next(s, step);
      RowsInv(t) && TokensInv(t) && Known(t.db) && PolicyInv(t.db) && UniqueInv(t.db.rows)
  {
    hide RowsInv, TokensInv, UniqueInv, RowWithdrawn;
    ClaimRows(s, step);
    ClaimTokens(s, step);
    ClaimUnique(s, step);
    ClaimLeaves(s, step);
    hide Next, Can;
    KnownKept(s.db, Next(s, step).db);
  }

  lemma IdleKeeps(s: System, step: Step)
    requires Can(s, step) && (step.Tick? || step.Crash?) && RowsInv(s) && TokensInv(s)
    ensures RowsInv(Next(s, step)) && TokensInv(Next(s, step))
  {
    var t := Next(s, step);
    forall w | 0 <= w < |t.workers| && t.workers[w].Busy? ensures JobInv(t, t.workers[w].job) {
      assert JobInv(s, s.workers[w].job);
    }
  }

  // ----- the second half --------------------------------------------------

  lemma WriteRows(r: Race, w: nat)
    requires RowsInv(r.s) && TokensInv(r.s) && Sound(r) && MayStep(r, Write(w))
    ensures RowsInv(After(r, Write(w)).s)
  {
    var job := r.s.workers[w].job;
    assert JobInv(r.s, job) && VerdictSound(r.s, job, r.verdicts[w]);
    assert RowInv(r.s.db.rows[job.index]);
    assert PastInv(r.s.db.rows[job.index], r.s.past[job.index], r.s.now, r.s.issued);
  }

  lemma WriteTokens(r: Race, w: nat)
    requires RowsInv(r.s) && TokensInv(r.s) && MayStep(r, Write(w))
    ensures TokensInv(After(r, Write(w)).s)
  {
    var t := After(r, Write(w)).s;
    assert JobInv(r.s, r.s.workers[w].job);
    forall v | 0 <= v < |t.workers| && t.workers[v].Busy? ensures JobInv(t, t.workers[v].job) {
      assert JobInv(r.s, r.s.workers[v].job);
    }
  }

  lemma WriteRest(r: Race, w: nat)
    requires Core(r) && MayStep(r, Write(w))
    ensures var db := After(r, Write(w)).s.db; Known(db) && PolicyInv(db) && UniqueInv(db.rows)
  {
    var db := After(r, Write(w)).s.db;
    var job := r.s.workers[w].job;
    assert JobInv(r.s, job) && VerdictSound(r.s, job, r.verdicts[w]);
    assert db == r.s.db.(rows := db.rows);
    hide RowsInv, TokensInv, UniqueInv, Backoff, EventKnown;
    KnownKept(r.s.db, db);
    CancelKeepsUnique(r.s.db.rows, db.rows);
  }

  lemma WriteSound(r: Race, w: nat)
    requires Core(r) && MayStep(r, Write(w)) && RowsInv(After(r, Write(w)).s)
    ensures Sound(After(r, Write(w)))
  {
    hide RowInv, PastInv, TokensInv, PolicyInv, UniqueInv, Known, Backoff, Live;
    var r' := After(r, Write(w));
    forall v | v in r'.verdicts
      ensures Working(r'.s, v) && VerdictSound(r'.s, r'.s.workers[v].job, r'.verdicts[v])
    {
      assert VerdictSound(r.s, r.s.workers[v].job, r.verdicts[v]);
    }
  }

  lemma WriteKeeps(r: Race, w: nat)
    requires Core(r) && MayStep(r, Write(w))
    ensures Core(After(r, Write(w)))
  {
    WriteRows(r, w);
    WriteTokens(r, w);
    WriteRest(r, w);
    hide After, RowsInv, TokensInv, PolicyInv, UniqueInv, Known;
    WriteSound(r, w);
  }

  lemma ReadKeeps(r: Race, w: nat, error: Option<Error>)
    requires Core(r) && MayStep(r, Read(w, error))
    ensures Core(After(r, Read(w, error)))
  {
    var r' := After(r, Read(w, error));
    var job := r.s.workers[w].job;
    assert JobInv(r.s, job) && r'.s == r.s;
    assert PastInv(r.s.db.rows[job.index], r.s.past[job.index], r.s.now, r.s.issued);
    forall v | v in r'.verdicts
      ensures Working(r'.s, v) && VerdictSound(r'.s, r'.s.workers[v].job, r'.verdicts[v])
    {
      if v != w { assert VerdictSound(r.s, r.s.workers[v].job, r.verdicts[v]); }
    }
  }

  lemma VerdictStillSound(r: Race, step: Step, w: nat)
    requires Core(r) && MayStep(r, Base(step)) && step != Crash(w) && w in r.verdicts
    requires |Next(r.s, step).past| == |Next(r.s, step).db.rows|
    ensures Working(Next(r.s, step), w)
    ensures VerdictSound(Next(r.s, step), Next(r.s, step).workers[w].job, r.verdicts[w])
  {
    hide RowsInv, Known, PolicyInv, UniqueInv, Forbids, RowWithdrawn, Withdrawn;
    var job := r.s.workers[w].job;
    assert VerdictSound(r.s, job, r.verdicts[w]) && JobInv(r.s, job);
    if r.verdicts[w].locks { SettingsHeld(r, step, w); }
    if Plain(step) { PlainEvolves(r.s, step); }
  }

  lemma BaseSound(r: Race, step: Step)
    requires Core(r) && MayStep(r, Base(step)) && RowsInv(After(r, Base(step)).s)
    ensures Sound(After(r, Base(step)))
  {
    hide Next, Can, VerdictSound, TokensInv, PolicyInv, UniqueInv, Known;
    var r' := After(r, Base(step));
    forall v | v in r'.verdicts
      ensures Working(r'.s, v) && VerdictSound(r'.s, r'.s.workers[v].job, r'.verdicts[v])
    {
      VerdictStillSound(r, step, v);
    }
  }

  // While the finish holds the settings row, nobody replaces the policy it read.
  lemma SettingsHeld(r: Race, step: Step, w: nat)
    requires MayStep(r, Base(step)) && w in r.verdicts && Working(r.s, w) && r.verdicts[w].locks
    ensures var c := r.s.workers[w].job.customer; PolicyOf(Next(r.s, step).db, c) == PolicyOf(r.s.db, c)
  {
    assert Locked(r, r.s.workers[w].job.customer);
    if step.Upload? {
      var stored := StoreEvent(r.s.db, step.e, step.incoming);
      if stored.Some? {
        EnqueueAlarmEvolves(stored.value, step.uid, step.incoming.customer, step.e, r.s.now);
      }
    }
  }

  /** Every step of every such interleaving keeps the invariant of the queue, but for
      the clause that no queued notice belongs to a maintenance. */
  lemma StepKeepsCore(r: Race, step: RaceStep)
    requires Core(r) && MayStep(r, step)
    ensures Core(After(r, step))
  {
    match step
    case Read(w, error) => ReadKeeps(r, w, error);
    case Write(w) => WriteKeeps(r, w);
    case Base(b) =>
      if Plain(b) {
        PlainKeeps(r.s, b);
      } else if b.ClaimBy? {
        ClaimKeeps(r.s, b);
      } else {
        IdleKeeps(r.s, b);
      }
      BaseSound(r, b);
  }

  lemma {:induction false} RunKeepsCore(r: Race, steps: seq<RaceStep>)
    requires Core(r) && RaceRuns(r, steps)
    ensures Core(RaceRun(r, steps))
    decreases |steps|
  {
    if steps != [] {
      StepKeepsCore(r, steps[0]);
      RunKeepsCore(After(r, steps[0]), steps[1..]);
    }
  }

  /** In every reachable state a queued notice is one the present settings allow,
      races included: the share lock keeps a disable out of a finish. */
  lemma DisableNeverRaces(r: Race, steps: seq<RaceStep>, i: nat)
    requires Init(r.s) && r.verdicts == map[] && RaceRuns(r, steps)
    requires i < |RaceRun(r, steps).s.db.rows| && RaceRun(r, steps).s.db.rows[i].status == Pending
    ensures var db := RaceRun(r, steps).s.db;
      !Forbids(PolicyOf(db, db.rows[i].customer), db.rows[i].kind, db.rows[i].recipient)
  {
    RunKeepsCore(r, steps);
  }

  // ----- what the write leaves --------------------------------------------

  lemma WriteLeaves(r: Race, w: nat)
    requires Core(r) && MayStep(r, Write(w))
    ensures var i := r.s.workers[w].job.index;
      && i < |After(r, Write(w)).s.db.rows| && i < |r.s.db.rows|
      && (Live(r.s.db.rows[i], r.s.workers[w].job) ==>
            After(r, Write(w)).s.db.rows[i].status == r.verdicts[w].status)
      && (!Live(r.s.db.rows[i], r.s.workers[w].job) ==> After(r, Write(w)).s.db == r.s.db)
  {
    assert JobInv(r.s, r.s.workers[w].job);
  }

  // Of a live attempt: it failed under the limit, and nothing withdrew it at its reads.
  predicate Requeues(s: System, job: Job, error: Option<Error>) {
    && error.Some? && job.attempts < MAX_ATTEMPTS
    && !Withdrawn(s.db, job.customer, job.event, job.kind, job.recipient, s.now)
  }

  // Steps that leave worker w and its verdict alone.
  ghost predicate LeavesAlone(steps: seq<RaceStep>, w: nat) {
    forall k :: 0 <= k < |steps| ==> steps[k] != Write(w) && steps[k] != Base(Crash(w))
  }

  lemma VerdictStays(r: Race, step: RaceStep, w: nat)
    requires MayStep(r, step) && Working(r.s, w) && w in r.verdicts
    requires step != Write(w) && step != Base(Crash(w))
    ensures var t := After(r, step);
      Working(t.s, w) && w in t.verdicts && t.verdicts[w] == r.verdicts[w] && t.s.workers[w] == r.s.workers[w]
  {
    if step.Base? && Plain(step.step) { PlainEvolves(r.s, step.step); }
  }

  lemma {:induction false} VerdictKept(r: Race, steps: seq<RaceStep>, w: nat)
    requires Core(r) && RaceRuns(r, steps) && LeavesAlone(steps, w) && Working(r.s, w) && w in r.verdicts
    ensures var t := RaceRun(r, steps);
      && Core(t) && Working(t.s, w) && w in t.verdicts && t.verdicts[w] == r.verdicts[w]
      && t.s.workers[w] == r.s.workers[w]
    decreases |steps|
  {
    hide Core, After, MayStep;
    if steps != [] {
      assert steps[0] != Write(w) && steps[0] != Base(Crash(w));
      VerdictStays(r, steps[0], w);
      StepKeepsCore(r, steps[0]);
      VerdictKept(After(r, steps[0]), steps[1..], w);
    }
  }

  lemma RequeuedIff(r: Race, m: Race, w: nat, error: Option<Error>)
    requires Core(m) && MayStep(m, Write(w)) && Working(r.s, w)
    requires m.s.workers[w] == r.s.workers[w] && m.verdicts[w] == VerdictOf(r.s, r.s.workers[w].job, error)
    ensures var t, job := After(m, Write(w)).s, r.s.workers[w].job;
      && job.index < |t.db.rows| && job.index < |m.s.db.rows|
      && (!Live(m.s.db.rows[job.index], job) ==> t.db == m.s.db)
      && (Live(m.s.db.rows[job.index], job) ==>
            (t.db.rows[job.index].status == Pending <==> Requeues(r.s, job, error))
            && (RowWithdrawn(t.db, t.db.rows[job.index], t.now)
                <==> RowWithdrawn(m.s.db, m.s.db.rows[job.index], m.s.now)))
  {
    hide RowsInv, Known, PolicyInv, UniqueInv, Sound, Maintained, Forbids, Backoff;
    WriteLeaves(m, w);
    assert JobInv(m.s, m.s.workers[w].job);
  }

  /** Whatever commits between the reads and the write: a finish whose claim is still
      live leaves its notice queued exactly when the attempt failed under the limit
      and nothing withdrew it at the reads; so the queued notice is one to stop exactly
      when it was withdrawn in between. A finish whose claim is gone changes nothing. */
  lemma RequeuedWithdrawnIff(r: Race, w: nat, error: Option<Error>, steps: seq<RaceStep>)
    requires Core(r) && MayStep(r, Read(w, error)) && LeavesAlone(steps, w)
    requires RaceRuns(After(r, Read(w, error)), steps)
    ensures var m := RaceRun(After(r, Read(w, error)), steps); MayStep(m, Write(w))
    ensures var m := RaceRun(After(r, Read(w, error)), steps);
      var t, job := After(m, Write(w)).s, r.s.workers[w].job;
      && job.index < |t.db.rows| && job.index < |m.s.db.rows|
      && (!Live(m.s.db.rows[job.index], job) ==> t.db == m.s.db)
      && (Live(m.s.db.rows[job.index], job) ==>
            (t.db.rows[job.index].status == Pending <==> Requeues(r.s, job, error))
            && (RowWithdrawn(t.db, t.db.rows[job.index], t.now)
                <==> RowWithdrawn(m.s.db, m.s.db.rows[job.index], m.s.now)))
  {
    var a := After(r, Read(w, error));
    StepKeepsCore(r, Read(w, error));
    assert a.verdicts[w] == VerdictOf(r.s, r.s.workers[w].job, error) && a.s == r.s;
    VerdictKept(a, steps, w);
    hide Core;
    RequeuedIff(r, RaceRun(a, steps), w, error);
  }

  // ----- and why it is never sent -----------------------------------------

  ghost predicate HandsOutIn(r: Race, step: RaceStep, i: nat) {
    step.Base? && HandsOutRow(r.s, step.step, i)
  }

  ghost function RaceHandOuts(r: Race, steps: seq<RaceStep>, i: nat): nat
    requires RaceRuns(r, steps)
    decreases |steps|
  {
    if steps == [] then 0
    else (if HandsOutIn(r, steps[0], i) then 1 else 0) + RaceHandOuts(After(r, steps[0]), steps[1..], i)
  }

  ghost predicate ClaimsRow(step: RaceStep, i: nat) {
    step.Base? && step.step.ClaimBy? && step.step.i == i
  }

  // What one step may do to a row no worker holds.
  lemma QueuedRowMoves(r: Race, step: RaceStep, i: nat)
    requires Core(r) && MayStep(r, step) && i < |r.s.db.rows| && r.s.db.rows[i].status != Sending
    ensures var t := After(r, step).s;
      && i < |t.db.rows|
      && (KeptOrCancelled(r.s.db.rows[i], t.db.rows[i])
          || (ClaimsRow(step, i) && t.db.rows[i] == ClaimedRow(r.s.db, r.s.db.rows[i], r.s.now, step.step.token)))
      && (ClaimsRow(step, i) ==> t.db.rows[i] == ClaimedRow(r.s.db, r.s.db.rows[i], r.s.now, step.step.token))
  {
    if step.Base? && Plain(step.step) {
      PlainEvolves(r.s, step.step);
    } else if step.Write? {
      assert JobInv(r.s, r.s.workers[step.w].job);
    }
  }

  ghost predicate RaceStopped(r: Race, steps: seq<RaceStep>, i: nat)
    requires RaceRuns(r, steps)
    decreases |steps|
  {
    steps == []
    || (i < |r.s.db.rows| && Stopped(r.s, i) && RaceStopped(After(r, steps[0]), steps[1..], i))
  }

  ghost predicate PickedIn(steps: seq<RaceStep>, i: nat) {
    exists k :: 0 <= k < |steps| && ClaimsRow(steps[k], i)
  }

  lemma StoppedHere(r: Race, step: RaceStep, i: nat)
    requires Core(r) && MayStep(r, step) && i < |r.s.db.rows| && Stopped(r.s, i)
    ensures i < |After(r, step).s.db.rows|
    ensures !HandsOutIn(r, step, i)
    ensures r.s.db.rows[i].status == Pending && ClaimsRow(step, i) ==> After(r, step).s.db.rows[i].status == Cancelled
  {
    assert RowInv(r.s.db.rows[i]) && EventKnown(r.s.db, r.s.db.rows[i]);
    StoppedRow(r.s, i);
    if step.Base? && Plain(step.step) { PlainEvolves(r.s, step.step); }
  }

  /** While a notice is to be stopped, it is handed to no worker, even if a finish that
      read before the stop puts it back in the queue. */
  lemma {:induction false} StoppedNeverHandedOut(r: Race, steps: seq<RaceStep>, i: nat)
    requires Core(r) && RaceRuns(r, steps) && i < |r.s.db.rows| && RaceStopped(r, steps, i)
    ensures RaceHandOuts(r, steps, i) == 0
    decreases |steps|
  {
    hide Core, After, MayStep, Stopped, HandsOutIn;
    if steps != [] {
      StoppedHere(r, steps[0], i);
      StepKeepsCore(r, steps[0]);
      StoppedNeverHandedOut(After(r, steps[0]), steps[1..], i);
    }
  }

  lemma CancelledHere(r: Race, step: RaceStep, i: nat)
    requires Core(r) && MayStep(r, step) && i < |r.s.db.rows| && r.s.db.rows[i].status == Cancelled
    ensures i < |After(r, step).s.db.rows| && After(r, step).s.db.rows[i] == r.s.db.rows[i]
  {
    hide After, Core;
    QueuedRowMoves(r, step, i);
    assert !ClaimsRow(step, i);
  }

  lemma {:induction false} CancelledStays(r: Race, steps: seq<RaceStep>, i: nat)
    requires Core(r) && RaceRuns(r, steps) && i < |r.s.db.rows| && r.s.db.rows[i].status == Cancelled
    ensures i < |RaceRun(r, steps).s.db.rows| && RaceRun(r, steps).s.db.rows[i] == r.s.db.rows[i]
    decreases |steps|
  {
    hide Core, After, MayStep;
    if steps != [] {
      CancelledHere(r, steps[0], i);
      StepKeepsCore(r, steps[0]);
      CancelledStays(After(r, steps[0]), steps[1..], i);
    }
  }

  /** A queued notice that is to be stopped stays as it is until something cancels it
      for good, and the next claim that picks it does. */
  lemma {:induction false} QueuedThenCancelled(r: Race, steps: seq<RaceStep>, i: nat)
    requires Core(r) && RaceRuns(r, steps) && RaceStopped(r, steps, i)
    requires i < |r.s.db.rows| && r.s.db.rows[i].status == Pending
    ensures i < |RaceRun(r, steps).s.db.rows|
    ensures var row := RaceRun(r, steps).s.db.rows[i]; row == r.s.db.rows[i] || row.status == Cancelled
    ensures PickedIn(steps, i) ==> RaceRun(r, steps).s.db.rows[i].status == Cancelled
    decreases |steps|
  {
    hide Core, After, MayStep, Stopped;
    if steps != [] {
      var m := After(r, steps[0]);
      QueuedRowMoves(r, steps[0], i);
      StoppedHere(r, steps[0], i);
      StepKeepsCore(r, steps[0]);
      assert m.s.db.rows[i] == r.s.db.rows[i] || m.s.db.rows[i].status == Cancelled;
      if m.s.db.rows[i].status == Cancelled {
        CancelledStays(m, steps[1..], i);
      } else {
        QueuedThenCancelled(m, steps[1..], i);
        assert PickedIn(steps, i) ==> ClaimsRow(steps[0], i) || PickedIn(steps[1..], i) by {
          if PickedIn(steps, i) {
            var k :| 0 <= k < |steps| && ClaimsRow(steps[k], i);
            assert k > 0 ==> steps[k] == steps[1..][k - 1];
          }
        }
      }
    }
  }

  // ----- an alarm whose event is over -------------------------------------

  ghost predicate AlarmOf(s: System, i: nat, e: EventId) {
    i < |s.db.rows| && s.db.rows[i].event == Some(e) && s.db.rows[i].kind == Alarm
  }

  lemma TargetStaysBase(s: System, step: Step, i: nat)
    requires Can(s, step) && !step.FinishBy? && PolicyInv(s.db) && i < |s.db.rows|
    ensures i < |Next(s, step).db.rows| && SameNoticeTarget(s.db.rows[i], Next(s, step).db.rows[i])
  {
    if step.ClaimBy? {
      hide Next, Can;
      ClaimLeaves(s, step);
    } else if Plain(step) {
      hide Next, Can;
      PlainEvolves(s, step);
    }
  }

  lemma TargetStays(r: Race, step: RaceStep, i: nat)
    requires Core(r) && MayStep(r, step) && i < |r.s.db.rows|
    ensures i < |After(r, step).s.db.rows| && SameNoticeTarget(r.s.db.rows[i], After(r, step).s.db.rows[i])
  {
    hide Next, Can, Backoff, RowsInv, TokensInv, PolicyInv, UniqueInv, Known, Sound;
    if step.Base? { TargetStaysBase(r.s, step.step, i); }
  }

  lemma EndStays(r: Race, step: RaceStep, e: EventId)
    requires MayStep(r, step) && EndedEvent(r.s.db, e)
    ensures EndedEvent(After(r, step).s.db, e)
    ensures After(r, step).s.db.events[e].endedAt == r.s.db.events[e].endedAt
  {
    if step.Base? { StepKeepsEvents(r.s, step.step); }
  }

  lemma EndedStops(r: Race, i: nat, e: EventId)
    requires EndedEvent(r.s.db, e) && AlarmOf(r.s, i, e)
    ensures Stopped(r.s, i)
  {
  }

  lemma {:induction false} EndedStopped(r: Race, steps: seq<RaceStep>, i: nat, e: EventId)
    requires Core(r) && RaceRuns(r, steps) && EndedEvent(r.s.db, e) && AlarmOf(r.s, i, e)
    ensures RaceStopped(r, steps, i)
    ensures EndedEvent(RaceRun(r, steps).s.db, e)
    ensures RaceRun(r, steps).s.db.events[e].endedAt == r.s.db.events[e].endedAt
    decreases |steps|
  {
    hide Core, After, MayStep, Stopped;
    EndedStops(r, i, e);
    if steps != [] {
      TargetStays(r, steps[0], i);
      EndStays(r, steps[0], e);
      StepKeepsCore(r, steps[0]);
      EndedStopped(After(r, steps[0]), steps[1..], i, e);
    }
  }

  /** Once an event is over it stays over, and no alarm notice of it is ever handed out
      again, whatever finishes were under way. */
  lemma EndedNeverHandedOut(r: Race, steps: seq<RaceStep>, i: nat, e: EventId)
    requires Core(r) && RaceRuns(r, steps) && EndedEvent(r.s.db, e) && AlarmOf(r.s, i, e)
    ensures RaceHandOuts(r, steps, i) == 0
    ensures EndedEvent(RaceRun(r, steps).s.db, e)
    ensures RaceRun(r, steps).s.db.events[e].endedAt == r.s.db.events[e].endedAt
  {
    EndedStopped(r, steps, i, e);
    StoppedNeverHandedOut(r, steps, i);
  }

  lemma {:induction false} EndedQueuesNone(r: Race, steps: seq<RaceStep>, e: EventId)
    requires Core(r) && RaceRuns(r, steps) && EndedEvent(r.s.db, e)
    ensures NewNoticesRecover(r.s, RaceRun(r, steps).s, e)
    decreases |steps|
  {
    if steps != [] {
      var m, t := After(r, steps[0]), RaceRun(r, steps);
      NewHere(r, steps[0], e);
      EndStays(r, steps[0], e);
      StepKeepsCore(r, steps[0]);
      EndedQueuesNone(m, steps[1..], e);
      forall i | |r.s.db.rows| <= i < |t.s.db.rows| && t.s.db.rows[i].event == Some(e)
        ensures t.s.db.rows[i].kind == Recovery
      {
        if i < |m.s.db.rows| { TargetsKept(m, steps[1..], i); }
      }
    }
  }

  lemma NewHere(r: Race, step: RaceStep, e: EventId)
    requires MayStep(r, step) && EndedEvent(r.s.db, e)
    ensures NewNoticesRecover(r.s, After(r, step).s, e)
  {
    if step.Base? { NewNotices(r.s, step.step, e); }
  }

  lemma {:induction false} TargetsKept(r: Race, steps: seq<RaceStep>, i: nat)
    requires Core(r) && RaceRuns(r, steps) && i < |r.s.db.rows|
    ensures i < |RaceRun(r, steps).s.db.rows|
    ensures SameNoticeTarget(r.s.db.rows[i], RaceRun(r, steps).s.db.rows[i])
    decreases |steps|
  {
    hide Core, After, MayStep;
    if steps != [] {
      TargetStays(r, steps[0], i);
      StepKeepsCore(r, steps[0]);
      TargetsKept(After(r, steps[0]), steps[1..], i);
    }
  }

  // ----- the race is real -------------------------------------------------

  /** A maintenance that starts between a finish's reads and its write leaves the failed
      notice queued, though the maintenance cancelled everything queued for the device. */
  lemma RacedRequeue(r: Race, w: nat, error: Option<Error>, endsAt: int)
    requires Core(r) && MayStep(r, Read(w, error))
    requires var job := r.s.workers[w].job;
      && job.kind != Test && Requeues(r.s, job, error) && job.index < |r.s.db.rows|
      && Live(r.s.db.rows[job.index], job)
    requires var job := r.s.workers[w].job;
      Readable(r.s.db, job.customer, job.event)
      && MaintenanceAllowed(r.s.db, r.s.db.events[job.event.value].device, endsAt, r.s.now)
    ensures var job := r.s.workers[w].job;
      var steps := [Base(Maintain(r.s.db.events[job.event.value].device, endsAt))];
      var a := After(r, Read(w, error));
      && RaceRuns(a, steps) && MayStep(RaceRun(a, steps), Write(w))
      && var t := After(RaceRun(a, steps), Write(w)).s;
         job.index < |t.db.rows| && t.db.rows[job.index].status == Pending && Stopped(t, job.index)
  {
    var job := r.s.workers[w].job;
    var d := r.s.db.events[job.event.value].device;
    var a := After(r, Read(w, error));
    var b := Base(Maintain(d, endsAt));
    var m := After(a, b);
    assert [b][1..] == [];
    assert RaceRuns(m, []) && RaceRuns(a, [b]) && RaceRun(a, [b]) == m;
    StepKeepsCore(r, Read(w, error));
    StepKeepsCore(a, b);
    assert m.s.db.rows[job.index] == r.s.db.rows[job.index];
    assert JobInv(m.s, job);
    WriteLeaves(m, w);
    StartedStops(After(m, Write(w)).s, job.index, |r.s.db.periods|);
  }

  lemma StartedStops(s: System, i: nat, k: nat)
    requires i < |s.db.rows| && s.db.rows[i].kind != Test && s.db.rows[i].event.Some?
    requires s.db.rows[i].event.value in s.db.events && k < |s.db.periods|
    requires s.db.periods[k].device == s.db.events[s.db.rows[i].event.value].device
    requires Current(s.db.periods[k], s.now)
    ensures Stopped(s, i)
  {
  }

  const DEVICE := Device(1, true)
  const OPENED := Event(1, 0, 0, 3, true, 0, None)
  const CUSTOMERS: map<CustomerId, Policy> := map[1 := Policy(true, [7], true, 0, None)]
  const EMPTY := System(Db([], CUSTOMERS, map[], map[3 := DEVICE], []), 0, [Idle], {}, [])

  // An alarm is queued and claimed; its attempt fails while a maintenance starts.
  const RACE := [Base(Upload(0, 5, OPENED)), Base(ClaimBy(0, 0, {}, 9)), Read(0, Some(Smtp(1))),
                 Base(Maintain(3, 60)), Write(0)]

  const TAKEN := Take(NewRow(0, 1, Some(5), Alarm, 7, 0), 0, 9)

  lemma UploadedFirst()
    ensures Next(EMPTY, Upload(0, 5, OPENED))
      == EMPTY.(db := EMPTY.db.(events := map[5 := OPENED], rows := [NewRow(0, 1, Some(5), Alarm, 7, 0)]),
                past := [Past(None, 0, 0)])
  {
    var stored := EMPTY.db.(events := map[5 := OPENED]);
    assert StoreEvent(EMPTY.db, 5, OPENED) == Some(stored);
    assert !Suppressed(stored, 1, Some(5), 0);
    assert EnqueueAll([], 0, 1, Some(5), Alarm, [7], 0) == [NewRow(0, 1, Some(5), Alarm, 7, 0)] by {
      assert EnqueueAll([NewRow(0, 1, Some(5), Alarm, 7, 0)], 1, 1, Some(5), Alarm, [7][1..], 0)
        == [NewRow(0, 1, Some(5), Alarm, 7, 0)];
    }
    assert Grow([], 1) == [Past(None, 0, 0)];
  }

  lemma ClaimedNext(s: System)
    requires s == Next(EMPTY, Upload(0, 5, OPENED))
    ensures Can(s, ClaimBy(0, 0, {}, 9))
    ensures Next(s, ClaimBy(0, 0, {}, 9)) == s.(db := s.db.(rows := [TAKEN]), issued := {9},
      workers := [Busy(Job(0, 1, Some(5), Alarm, 7, 1, 9))], past := [Past(Some(9), 1, 0)])
  {
    UploadedFirst();
    assert Candidate(s.db.rows, 0, {}, 0);
    assert !RowWithdrawn(s.db, s.db.rows[0], 0);
  }

  lemma FirstTwo() returns (r: Race)
    ensures RaceRuns(Race(EMPTY, map[]), RACE[..2]) && r == RaceRun(Race(EMPTY, map[]), RACE[..2])
    ensures r.verdicts == map[] && r.s == System(
      Db([TAKEN], CUSTOMERS, map[5 := OPENED], map[3 := DEVICE], []), 0,
      [Busy(Job(0, 1, Some(5), Alarm, 7, 1, 9))], {9}, [Past(Some(9), 1, 0)])
  {
    var a := Race(EMPTY, map[]);
    UploadedFirst();
    ClaimedNext(Next(EMPTY, Upload(0, 5, OPENED)));
    assert RACE[..2] == [RACE[0], RACE[1]] && RACE[..2][1..] == [RACE[1]] && [RACE[1]][1..] == [];
    var b := After(a, RACE[0]);
    r := After(b, RACE[1]);
    assert RaceRuns(r, []) && RaceRuns(b, [RACE[1]]) && RaceRun(b, [RACE[1]]) == r;
  }

  lemma EmptyCore()
    ensures Core(Race(EMPTY, map[]))
  {
  }

  lemma ReadAndRace(r: Race)
    requires r.verdicts == map[] && Core(r) && r.s == System(
      Db([TAKEN], CUSTOMERS, map[5 := OPENED], map[3 := DEVICE], []), 0,
      [Busy(Job(0, 1, Some(5), Alarm, 7, 1, 9))], {9}, [Past(Some(9), 1, 0)])
    ensures MayStep(r, RACE[2])
    ensures var a := After(r, RACE[2]);
      && RaceRuns(a, RACE[3..4]) && MayStep(RaceRun(a, RACE[3..4]), RACE[4])
      && var t := After(RaceRun(a, RACE[3..4]), RACE[4]).s;
         0 < |t.db.rows| && t.db.rows[0].status == Pending && Stopped(t, 0)
  {
    assert RACE[3..4] == [RACE[3]];
    assert Readable(r.s.db, 1, Some(5)) && !Suppressed(r.s.db, 1, Some(5), 0);
    assert Requeues(r.s, r.s.workers[0].job, Some(Smtp(1)));
    hide Core, After, RaceRuns, RaceRun, Stopped, Suppressed, Requeues;
    RacedRequeue(r, 0, Some(Smtp(1)), 60);
  }

  /** From an empty queue: an alarm is claimed, its attempt fails, and a maintenance that
      starts between the finish's reads and its write leaves the notice queued. */
  lemma RaceIsReached() returns (r: Race)
    ensures Init(EMPTY)
    ensures RaceRuns(Race(EMPTY, map[]), RACE[..2]) && r == RaceRun(Race(EMPTY, map[]), RACE[..2])
    ensures MayStep(r, RACE[2])
    ensures var a := After(r, RACE[2]);
      && RaceRuns(a, RACE[3..4]) && MayStep(RaceRun(a, RACE[3..4]), RACE[4])
      && var t := After(RaceRun(a, RACE[3..4]), RACE[4]).s;
         0 < |t.db.rows| && t.db.rows[0].status == Pending && Stopped(t, 0)
  {
    hide Core, After, RaceRuns, RaceRun, Stopped, MayStep;
    r := FirstTwo();
    EmptyCore();
    RunKeepsCore(Race(EMPTY, map[]), RACE[..2]);
    ReadAndRace(r);
  }
}
