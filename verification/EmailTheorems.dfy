/** What every interleaving of the notification queue guarantees. */
module EmailTheorems {
  import opened Common
  import opened EmailStore
  import opened EmailProtocol

  lemma InitInv(s: System)
    requires Init(s)
    ensures Inv(s)
  {
  }

  // ----- one row, one step ------------------------------------------------

  ghost predicate Moves(s: System, step: Step, i: nat, r': Row)
    requires i < |s.db.rows| && Can(s, step)
  {
    var r := s.db.rows[i];
    || KeptOrCancelled(r, r')
    || (step.ClaimBy? && step.i == i && r' == ClaimedRow(s.db, r, s.now, step.token))
    || (step.FinishBy? && s.workers[step.w].job.index == i && Live(r, s.workers[step.w].job)
        && r' == FinishedRow(s.db, r, s.workers[step.w].job, step.error, s.now))
  }

  ghost predicate HandsOutRow(s: System, step: Step, i: nat) {
    step.ClaimBy? && step.i == i && i < |s.db.rows| && HandsOut(s.db, s.db.rows[i], s.now)
  }

  lemma RowMoves(s: System, step: Step, i: nat)
    requires Inv(s) && Can(s, step) && i < |s.db.rows|
    ensures var t := Next(s, step);
      && i < |t.db.rows| && i < |t.past| && Moves(s, step, i, t.db.rows[i])
      && t.past[i] == if HandsOutRow(s, step, i) then Past(Some(step.token), s.past[i].count + 1, s.now) else s.past[i]
  {
    match step
    case Upload(uid, e, incoming) =>
      var stored := StoreEvent(s.db, e, incoming);
      if stored.Some? {
        EnqueueAlarmEvolves(stored.value, uid, incoming.customer, e, s.now);
      }
    case TestMail(uid, c) =>
      EnqueueAllEvolves(s.db.rows, uid, c, None, Test, s.db.policies[c].recipients, s.now);
      var out := QueueTest(s.db, uid, c, s.now).rows;
      assert out[i] == out[..|s.db.rows|][i];
    case Tick(_) =>
    case ClaimBy(_, _, _, _) =>
    case FinishBy(_, _) =>
    case Crash(_) =>
    case Save(_, _, _, _) =>
    case Maintain(_, _) =>
    case Resume(_) =>
    case Switch(_, _) =>
  }

  // ----- exclusion and fencing --------------------------------------------

  // The worker's claim on the row is the row's own, and its lease still runs.
  predicate Holds(s: System, w: nat, i: nat) {
    && w < |s.workers| && s.workers[w].Busy? && i < |s.db.rows| && s.workers[w].job.index == i
    && Live(s.db.rows[i], s.workers[w].job)
    && s.db.rows[i].lease.Some? && s.now < s.db.rows[i].lease.value
  }

  lemma HeldAlone(s: System, v: nat, w: nat, i: nat, locked: set<nat>)
    requires Inv(s) && Holds(s, v, i)
    ensures Holds(s, w, i) ==> v == w
    ensures !IsFirst(s.db.rows, s.now, locked, i)
  {
    if Holds(s, w, i) {
      assert SameClaim(s.workers[v], s.workers[w]);
    }
  }

  lemma Reached(s: System, steps: seq<Step>)
    requires Init(s) && Runs(s, steps)
    ensures Inv(Run(s, steps))
  {
    hide Inv, Init, Runs, Run;
    InitInv(s);
    RunKeepsInv(s, steps);
  }

  /** In every reachable state no two workers hold an unexpired claim on one row, and
      nobody can claim a row that is held. */
  lemma ClaimsExclude(s: System, steps: seq<Step>, v: nat, w: nat, i: nat, locked: set<nat>)
    requires Init(s) && Runs(s, steps) && Holds(Run(s, steps), v, i)
    ensures Holds(Run(s, steps), w, i) ==> v == w
    ensures !IsFirst(Run(s, steps).db.rows, Run(s, steps).now, locked, i)
  {
    hide Inv, Init, Runs, Run, Holds;
    Reached(s, steps);
    HeldAlone(Run(s, steps), v, w, i, locked);
  }

  // sending, a claim token and a lease come and go together; attempts stay within the
  // limit and count the hand-outs.
  predicate Shaped(r: Row, p: Past) {
    && (r.status == Sending <==> r.claim.Some?) && (r.status == Sending <==> r.lease.Some?)
    && r.attempts == p.count <= MAX_ATTEMPTS && (r.claim.Some? ==> r.claim == p.newest)
  }

  lemma ShapedNow(s: System, i: nat)
    requires Inv(s) && i < |s.db.rows|
    ensures Shaped(s.db.rows[i], s.past[i])
  {
    assert RowInv(s.db.rows[i]) && PastInv(s.db.rows[i], s.past[i], s.now, s.issued);
  }

  /** In every reachable state a row is sending exactly when it has a claim token and
      exactly when it has a lease, the token is that of its latest hand-out, and its
      attempts count its hand-outs and never exceed five. */
  lemma RowShape(s: System, steps: seq<Step>, i: nat)
    requires Init(s) && Runs(s, steps) && i < |Run(s, steps).db.rows|
    ensures i < |Run(s, steps).past| && Shaped(Run(s, steps).db.rows[i], Run(s, steps).past[i])
  {
    hide Init, Runs, Run, Shaped;
    Reached(s, steps);
    ShapedNow(Run(s, steps), i);
  }

  predicate Superseded(s: System, i: nat, token: Token) {
    i < |s.db.rows| && token in s.issued && s.db.rows[i].claim != Some(token)
  }

  lemma SupersededStays(s: System, step: Step, i: nat, token: Token)
    requires Inv(s) && Can(s, step) && Superseded(s, i, token)
    ensures Superseded(Next(s, step), i, token)
  {
    RowMoves(s, step, i);
    assert s.issued <= Next(s, step).issued;
  }

  /** A token that is no longer its row's claim never becomes it again, so whoever
      carries it can finish nothing, however long after. */
  lemma {:induction false} FencedForever(s: System, steps: seq<Step>, i: nat, token: Token)
    requires Inv(s) && Runs(s, steps) && Superseded(s, i, token)
    ensures Superseded(Run(s, steps), i, token)
    ensures forall job: Job, error: Option<Error>, now: int ::
      job.index == i && job.token == token && job.attempts >= 1 ==>
        Finish(Run(s, steps).db, job, error, now) == Run(s, steps).db
    decreases steps
  {
    if steps != [] {
      StepKeepsInv(s, steps[0]);
      SupersededStays(s, steps[0], i, token);
      FencedForever(Next(s, steps[0]), steps[1..], i, token);
    }
  }

  /** Once a later claim is out, every earlier claim on the row is superseded. */
  lemma LaterClaimSupersedes(s: System, step: Step, w: nat)
    requires Inv(s) && Can(s, step) && step.ClaimBy?
    requires w < |s.workers| && s.workers[w].Busy? && s.workers[w].job.index == step.i
    ensures Superseded(Next(s, step), step.i, s.workers[w].job.token)
  {
    assert JobInv(s, s.workers[w].job);
    RowMoves(s, step, step.i);
    ShapedNow(s, step.i);
  }

  // ----- terminal rows, hand-outs -----------------------------------------

  predicate Terminal(r: Row) { r.status == Sent || r.status == Failed || r.status == Cancelled }

  /** sent, failed and cancelled rows never change again, in any field. */
  lemma {:induction false} TerminalForever(s: System, steps: seq<Step>, i: nat)
    requires Inv(s) && Runs(s, steps) && i < |s.db.rows| && Terminal(s.db.rows[i])
    ensures i < |Run(s, steps).db.rows| && Run(s, steps).db.rows[i] == s.db.rows[i]
    decreases steps
  {
    if steps != [] {
      RowMoves(s, steps[0], i);
      StepKeepsInv(s, steps[0]);
      TerminalForever(Next(s, steps[0]), steps[1..], i);
    }
  }

  // How often a run gives row i to a worker, who then calls the mail server once.
  ghost function HandOuts(s: System, steps: seq<Step>, i: nat): nat
    requires Runs(s, steps)
    decreases steps
  {
    if steps == [] then 0
    else (if HandsOutRow(s, steps[0], i) then 1 else 0) + HandOuts(Next(s, steps[0]), steps[1..], i)
  }

  lemma {:induction false} HandOutsCounted(s: System, steps: seq<Step>, i: nat)
    requires Inv(s) && Runs(s, steps) && i < |s.db.rows|
    ensures i < |Run(s, steps).past|
    ensures Run(s, steps).past[i].count == s.past[i].count + HandOuts(s, steps, i)
    decreases steps
  {
    if steps != [] {
      RowMoves(s, steps[0], i);
      StepKeepsInv(s, steps[0]);
      HandOutsCounted(Next(s, steps[0]), steps[1..], i);
    }
  }

  /** In any run a row goes to the mail server at most five times, crashes and lost
      results included. */
  lemma HandOutsBounded(s: System, steps: seq<Step>, i: nat)
    requires Inv(s) && Runs(s, steps) && i < |s.db.rows|
    ensures s.past[i].count + HandOuts(s, steps, i) <= MAX_ATTEMPTS
  {
    HandOutsCounted(s, steps, i);
    RunKeepsInv(s, steps);
    ShapedNow(Run(s, steps), i);
  }

  /** Retries wait 60, 120, 240 and then the 300 seconds of the lease at least, so
      the fifth hand-out comes no sooner than twelve minutes after the enqueue. */
  lemma HandOutsSpaced(s: System, step: Step, i: nat)
    requires Inv(s) && Can(s, step) && HandsOutRow(s, step, i)
    ensures s.past[i].count > 0 ==> s.past[i].at + Gap(s.past[i].count) <= s.now
    ensures Gap(1) == 60 && Gap(2) == 120 && Gap(3) == 240 && Gap(4) == 300
    ensures s.past[i].count == 4 ==> s.db.rows[i].createdAt + 720 <= s.now
  {
    if s.past[i].count > 0 {
      DueWaited(s.db.rows[i], s.past[i], s.now, s.issued);
    }
    BackoffValues();
    assert Elapsed(4) == Elapsed(3) + Gap(3) && Elapsed(3) == Elapsed(2) + Gap(2) && Elapsed(2) == Gap(1);
  }

  /** The one-hour cap of the retry delay is never reached within five attempts. */
  lemma BackoffValues()
    ensures Backoff(1) == 60 && Backoff(2) == 120 && Backoff(3) == 240 && Backoff(4) == 480
  {
    assert Power2(1) == 2 && Power2(2) == 4;
    assert Power2(3) == 2 * Power2(2);
  }

  // ----- a request with several events ------------------------------------

  function UploadsOf(batch: seq<Item>): seq<Step> {
    seq(|batch|, k requires 0 <= k < |batch| => Upload(batch[k].uid, batch[k].id, batch[k].event))
  }

  /** An accepted request is a run of single uploads at one moment, so whatever every
      run keeps, requests of any length keep. */
  lemma {:induction false} RequestIsUploads(s: System, batch: seq<Item>)
    requires Inv(s) && IngestAll(s.db, batch, s.now).Some?
    ensures Runs(s, UploadsOf(batch))
    ensures var t := Run(s, UploadsOf(batch)); Inv(t) && t.db == IngestAll(s.db, batch, s.now).value && t.now == s.now
    decreases |batch|
  {
    hide Inv, Ingest, StoreEvent;
    if batch != [] {
      var step := Upload(batch[0].uid, batch[0].id, batch[0].event);
      StepKeepsInv(s, step);
      RequestIsUploads(Next(s, step), batch[1..]);
      assert UploadsOf(batch)[0] == step && UploadsOf(batch)[1..] == UploadsOf(batch[1..]);
    }
  }

  // ----- recovered events -------------------------------------------------

  predicate EndedEvent(db: Db, e: EventId) { e in db.events && db.events[e].endedAt.Some? }

  ghost predicate NewNoticesRecover(s: System, t: System, e: EventId) {
    |s.db.rows| <= |t.db.rows|
    && forall i :: |s.db.rows| <= i < |t.db.rows| && t.db.rows[i].event == Some(e) ==> t.db.rows[i].kind == Recovery
  }

  // An alarm notice of a recovered event is never handed out nor queued again.
  ghost predicate AlarmsQuiet(s: System, t: System, e: EventId) {
    && |s.db.rows| <= |t.db.rows| && |s.db.rows| <= |s.past| <= |t.past|
    && forall i :: 0 <= i < |s.db.rows| && s.db.rows[i].event == Some(e) && s.db.rows[i].kind == Alarm ==>
      t.past[i].count == s.past[i].count && (t.db.rows[i].status == Pending ==> s.db.rows[i].status == Pending)
  }

  lemma EndKept(s: System, step: Step, e: EventId)
    requires Inv(s) && Can(s, step) && EndedEvent(s.db, e)
    ensures e in Next(s, step).db.events && Next(s, step).db.events[e] == s.db.events[e]
  {
    if step.Upload? {
      var stored := StoreEvent(s.db, step.e, step.incoming);
      if stored.Some? {
        EnqueueAlarmEvolves(stored.value, step.uid, step.incoming.customer, step.e, s.now);
      }
    }
  }

  lemma NewNotices(s: System, step: Step, e: EventId)
    requires Can(s, step) && EndedEvent(s.db, e)
    ensures NewNoticesRecover(s, Next(s, step), e)
  {
    var t := Next(s, step);
    if step.Upload? {
      var stored := StoreEvent(s.db, step.e, step.incoming);
      if stored.Some? {
        EnqueueAlarmEvolves(stored.value, step.uid, step.incoming.customer, step.e, s.now);
        assert forall i :: |s.db.rows| <= i < |t.db.rows| ==>
          NoticeFor(stored.value, t.db.rows[i], step.incoming.customer, step.e, s.now);
      }
    } else if step.TestMail? {
      var to := s.db.policies[step.c].recipients;
      EnqueueAllEvolves(s.db.rows, step.uid, step.c, None, Test, to, s.now);
      assert forall i :: |s.db.rows| <= i < |t.db.rows| ==> FreshFor(t.db.rows[i], step.c, None, Test, to, s.now);
    } else {
      assert |t.db.rows| == |s.db.rows|;
    }
  }

  lemma EndedStep(s: System, step: Step, e: EventId)
    requires Inv(s) && Can(s, step) && EndedEvent(s.db, e)
    ensures e in Next(s, step).db.events && Next(s, step).db.events[e] == s.db.events[e]
    ensures NewNoticesRecover(s, Next(s, step), e) && AlarmsQuiet(s, Next(s, step), e)
  {
    hide Next;
    StepKeepsInv(s, step);
    EndKept(s, step, e);
    NewNotices(s, step, e);
    forall i | 0 <= i < |s.db.rows| && s.db.rows[i].event == Some(e) && s.db.rows[i].kind == Alarm
      ensures Next(s, step).past[i].count == s.past[i].count
      ensures Next(s, step).db.rows[i].status == Pending ==> s.db.rows[i].status == Pending
    {
      AlarmStaysQuiet(s, step, e, i);
    }
  }

  lemma AlarmStaysQuiet(s: System, step: Step, e: EventId, i: nat)
    requires Inv(s) && Can(s, step) && EndedEvent(s.db, e)
    requires i < |s.db.rows| && s.db.rows[i].event == Some(e) && s.db.rows[i].kind == Alarm
    ensures i < |Next(s, step).past| && Next(s, step).past[i].count == s.past[i].count
    ensures i < |Next(s, step).db.rows|
    ensures Next(s, step).db.rows[i].status == Pending ==> s.db.rows[i].status == Pending
  {
    assert EventKnown(s.db, s.db.rows[i]);
    assert RowWithdrawn(s.db, s.db.rows[i], s.now);
    WithdrawnStep(s, step, i);
  }

  /** Once a stored event has an end time it keeps it under every later or
      out-of-order upload; from then on no alarm notice of it is enqueued, handed to
      a worker or put back in the queue. */
  lemma {:induction false} EndedForever(s: System, steps: seq<Step>, e: EventId)
    requires Inv(s) && Runs(s, steps) && EndedEvent(s.db, e)
    ensures var t := Run(s, steps);
      e in t.db.events && t.db.events[e] == s.db.events[e] && NewNoticesRecover(s, t, e) && AlarmsQuiet(s, t, e)
    decreases steps
  {
    if steps != [] {
      var m := Next(s, steps[0]);
      EndedStep(s, steps[0], e);
      StepKeepsInv(s, steps[0]);
      EndedForever(m, steps[1..], e);
      QuietTogether(s, steps[0], m, Run(m, steps[1..]), e);
      RecoverTogether(s, steps[0], m, steps[1..], e);
    }
  }

  lemma QuietTogether(s: System, step: Step, m: System, t: System, e: EventId)
    requires Inv(s) && Can(s, step) && m == Next(s, step)
    requires AlarmsQuiet(s, m, e) && AlarmsQuiet(m, t, e)
    ensures AlarmsQuiet(s, t, e)
  {
    forall i | 0 <= i < |s.db.rows| && s.db.rows[i].event == Some(e) && s.db.rows[i].kind == Alarm
      ensures t.past[i].count == s.past[i].count
      ensures t.db.rows[i].status == Pending ==> s.db.rows[i].status == Pending
    {
      RowMoves(s, step, i);
    }
  }

  lemma RecoverTogether(s: System, step: Step, m: System, rest: seq<Step>, e: EventId)
    requires Inv(s) && Can(s, step) && m == Next(s, step) && Runs(m, rest)
    requires NewNoticesRecover(s, m, e) && NewNoticesRecover(m, Run(m, rest), e)
    ensures NewNoticesRecover(s, Run(m, rest), e)
  {
    var t := Run(m, rest);
    StepKeepsInv(s, step);
    forall i | |s.db.rows| <= i < |t.db.rows| && t.db.rows[i].event == Some(e) ensures t.db.rows[i].kind == Recovery {
      if i < |m.db.rows| {
        TargetKept(m, rest, i);
      }
    }
  }

  predicate SameNoticeTarget(a: Row, b: Row) {
    a.customer == b.customer && a.event == b.event && a.kind == b.kind && a.recipient == b.recipient
  }

  /** A row's customer, event, kind and recipient never change. */
  lemma {:induction false} TargetKept(s: System, steps: seq<Step>, i: nat)
    requires Inv(s) && Runs(s, steps) && i < |s.db.rows|
    ensures i < |Run(s, steps).db.rows| && SameNoticeTarget(s.db.rows[i], Run(s, steps).db.rows[i])
    decreases steps
  {
    if steps != [] {
      RowMoves(s, steps[0], i);
      StepKeepsInv(s, steps[0]);
      TargetKept(Next(s, steps[0]), steps[1..], i);
    }
  }

  /** An attempt whose event recovered while it was in flight, and which then fails
      under the live claim, ends cancelled. */
  lemma FailureAfterRecovery(s: System, step: Step)
    requires Inv(s) && Can(s, step) && step.FinishBy? && step.error.Some?
    requires var job := s.workers[step.w].job;
      job.kind == Alarm && job.event.Some? && EndedEvent(s.db, job.event.value)
    requires Live(s.db.rows[s.workers[step.w].job.index], s.workers[step.w].job)
    ensures Next(s, step).db.rows[s.workers[step.w].job.index].status == Cancelled
  {
    assert JobInv(s, s.workers[step.w].job);
    assert EventKnown(s.db, s.db.rows[s.workers[step.w].job.index]);
  }

  // ----- notices that must not go out -------------------------------------

  // The reasons a customer or operator has for stopping a notice.
  ghost predicate Stopped(s: System, i: nat)
    requires i < |s.db.rows|
  {
    var r := s.db.rows[i];
    var policy := PolicyOf(s.db, r.customer);
    || r.recipient !in policy.recipients
    || (r.kind != Test && !policy.enabled)
    || (r.kind == Recovery && !policy.notifyRecovery)
    || (r.kind != Test && DeviceStopped(s, r.event))
    || (r.kind == Alarm && r.event.Some? && EndedEvent(s.db, r.event.value))
  }

  ghost predicate DeviceStopped(s: System, e: Option<EventId>) {
    e.Some? && e.value in s.db.events &&
    var event := s.db.events[e.value];
    || (event.device in s.db.devices && !s.db.devices[event.device].enabled)
    || (exists k :: 0 <= k < |s.db.periods| && s.db.periods[k].device == event.device
                    && Current(s.db.periods[k], s.now))
  }

  lemma StoppedIsWithdrawn(s: System, i: nat)
    requires Inv(s) && i < |s.db.rows| && Stopped(s, i)
    ensures RowWithdrawn(s.db, s.db.rows[i], s.now)
  {
    assert RowInv(s.db.rows[i]) && EventKnown(s.db, s.db.rows[i]);
    StoppedRow(s, i);
  }

  lemma StoppedRow(s: System, i: nat)
    requires i < |s.db.rows| && Stopped(s, i) && RowInv(s.db.rows[i]) && EventKnown(s.db, s.db.rows[i])
    ensures RowWithdrawn(s.db, s.db.rows[i], s.now)
  {
    var r := s.db.rows[i];
    if r.kind != Test && DeviceStopped(s, r.event) {
      assert Suppressed(s.db, r.customer, r.event, s.now);
    }
  }

  lemma WithdrawnStep(s: System, step: Step, i: nat)
    requires Inv(s) && Can(s, step) && i < |s.db.rows| && RowWithdrawn(s.db, s.db.rows[i], s.now)
    ensures var t := Next(s, step);
      && i < |t.db.rows| && i < |t.past| && t.past[i] == s.past[i]
      && (t.db.rows[i].status == Pending ==> s.db.rows[i].status == Pending)
  {
    RowMoves(s, step, i);
    if step.FinishBy? {
      assert JobInv(s, s.workers[step.w].job);
    }
  }

  ghost predicate StoppedThroughout(s: System, steps: seq<Step>, i: nat)
    requires Runs(s, steps)
    decreases steps
  {
    steps == [] || (i < |s.db.rows| && Stopped(s, i) && StoppedThroughout(Next(s, steps[0]), steps[1..], i))
  }

  /** While a disable, a removed recipient, a recovery opt-out, a disabled device, a
      maintenance period or a recovery stays in force, the notice is not handed out
      and a failing attempt in flight is not requeued. */
  lemma {:induction false} StoppedNeverSent(s: System, steps: seq<Step>, i: nat)
    requires Inv(s) && Runs(s, steps) && i < |s.db.rows| && StoppedThroughout(s, steps, i)
    ensures HandOuts(s, steps, i) == 0
    ensures i < |Run(s, steps).db.rows|
    ensures Run(s, steps).db.rows[i].status == Pending ==> s.db.rows[i].status == Pending
    decreases steps
  {
    if steps != [] {
      StoppedIsWithdrawn(s, i);
      WithdrawnStep(s, steps[0], i);
      StepKeepsInv(s, steps[0]);
      StoppedNeverSent(Next(s, steps[0]), steps[1..], i);
    }
  }

  // A pending row the present settings allow, of a known event not under maintenance.
  ghost predicate Wanted(s: System, i: nat)
    requires i < |s.db.rows|
  {
    var r := s.db.rows[i];
    && !Forbids(PolicyOf(s.db, r.customer), r.kind, r.recipient)
    && (r.event.Some? ==> r.event.value in s.db.events && !Maintained(s.db.periods, s.db.events[r.event.value], s.now))
  }

  lemma PendingWanted(s: System, i: nat)
    requires Inv(s) && i < |s.db.rows| && s.db.rows[i].status == Pending
    ensures Wanted(s, i)
  {
    assert EventKnown(s.db, s.db.rows[i]);
  }

  /** In every reachable state each queued notice is one the present settings allow
      and none is queued for an event under maintenance of its device; so settings
      never have to be re-read to know that a disable emptied the queue. */
  lemma QueuedIsWanted(s: System, steps: seq<Step>, i: nat)
    requires Init(s) && Runs(s, steps) && i < |Run(s, steps).db.rows| && Run(s, steps).db.rows[i].status == Pending
    ensures Wanted(Run(s, steps), i)
  {
    hide Inv, Init, Runs, Run, Wanted;
    Reached(s, steps);
    PendingWanted(Run(s, steps), i);
  }

  lemma NoticeOnce(s: System, i: nat, j: nat)
    requires Inv(s) && i < |s.db.rows| && j < |s.db.rows|
    requires s.db.rows[i].event.Some? && s.db.rows[i].event == s.db.rows[j].event
    requires s.db.rows[i].kind == s.db.rows[j].kind && s.db.rows[i].recipient == s.db.rows[j].recipient
    ensures i == j
  {
    assert EventKnown(s.db, s.db.rows[i]) && EventKnown(s.db, s.db.rows[j]);
    var a, b := s.db.rows[i], s.db.rows[j];
    assert SameNotice(b, a.customer, a.event, a.kind, a.recipient);
    assert SameNotice(a, b.customer, b.event, b.kind, b.recipient);
  }

  /** In every reachable state one event has at most one alarm and one recovery notice
      per recipient. */
  lemma NoticesUnique(s: System, steps: seq<Step>, i: nat, j: nat)
    requires Init(s) && Runs(s, steps) && i < |Run(s, steps).db.rows| && j < |Run(s, steps).db.rows|
    requires var a, b := Run(s, steps).db.rows[i], Run(s, steps).db.rows[j];
      a.event.Some? && a.event == b.event && a.kind == b.kind && a.recipient == b.recipient
    ensures i == j
  {
    hide Inv, Init, Runs, Run;
    Reached(s, steps);
    NoticeOnce(Run(s, steps), i, j);
  }

  // ----- the queue drains -------------------------------------------------

  function Weight(r: Row): nat {
    var left := if r.attempts <= MAX_ATTEMPTS then MAX_ATTEMPTS - r.attempts else 0;
    match r.status
    case Pending => 2 * left + 1
    case Sending => 2 * left + 2
    case _ => 0
  }

  function Total(rows: seq<Row>): nat {
    if rows == [] then 0 else Weight(rows[0]) + Total(rows[1..])
  }

  lemma {:induction false} TotalUpdate(rows: seq<Row>, i: nat, r: Row)
    requires i < |rows|
    ensures Total(rows[i := r]) == Total(rows) - Weight(rows[i]) + Weight(r)
  {
    if i == 0 {
      assert rows[0 := r][1..] == rows[1..];
    } else {
      assert rows[i := r][1..] == rows[1..][i - 1 := r];
      TotalUpdate(rows[1..], i - 1, r);
    }
  }

  lemma {:induction false} TotalFalls(rows: seq<Row>, rows': seq<Row>)
    requires |rows| == |rows'|
    requires forall i :: 0 <= i < |rows| ==> Weight(rows'[i]) <= Weight(rows[i])
    ensures Total(rows') <= Total(rows)
  {
    if rows != [] {
      assert forall i :: 0 <= i < |rows[1..]| ==> rows[1..][i] == rows[i + 1] && rows'[1..][i] == rows'[i + 1];
      TotalFalls(rows[1..], rows'[1..]);
    }
  }

  ghost predicate Effective(s: System, step: Step)
    requires Can(s, step)
  {
    || step.ClaimBy?
    || (step.FinishBy? && s.workers[step.w].job.index < |s.db.rows|
        && Live(s.db.rows[s.workers[step.w].job.index], s.workers[step.w].job))
  }

  lemma ClaimLightens(db: Db, r: Row, now: int, token: Token)
    requires RowInv(r) && Eligible(r, now)
    ensures Weight(ClaimedRow(db, r, now, token)) < Weight(r)
  {
  }

  lemma FinishLightens(db: Db, r: Row, job: Job, error: Option<Error>, now: int)
    requires RowInv(r) && Live(r, job) && job.attempts >= 1
    ensures Weight(FinishedRow(db, r, job, error, now)) < Weight(r)
  {
    hide Backoff;
  }

  lemma StepDrains(s: System, step: Step)
    requires Inv(s) && Can(s, step)
    requires |Next(s, step).db.rows| == |s.db.rows|
    ensures Total(Next(s, step).db.rows) + (if Effective(s, step) then 1 else 0) <= Total(s.db.rows)
  {
    var t := Next(s, step);
    if step.ClaimBy? {
      ClaimLightens(s.db, s.db.rows[step.i], s.now, step.token);
      TotalUpdate(s.db.rows, step.i, ClaimedRow(s.db, s.db.rows[step.i], s.now, step.token));
    } else if step.FinishBy? && Effective(s, step) {
      var job := s.workers[step.w].job;
      FinishLightens(s.db, s.db.rows[job.index], job, step.error, s.now);
      TotalUpdate(s.db.rows, job.index, FinishedRow(s.db, s.db.rows[job.index], job, step.error, s.now));
    } else {
      forall i | 0 <= i < |s.db.rows| ensures Weight(t.db.rows[i]) <= Weight(s.db.rows[i]) {
        RowMoves(s, step, i);
      }
      TotalFalls(s.db.rows, t.db.rows);
    }
  }

  ghost function EffectiveSteps(s: System, steps: seq<Step>): nat
    requires Runs(s, steps)
    decreases steps
  {
    if steps == [] then 0
    else (if Effective(s, steps[0]) then 1 else 0) + EffectiveSteps(Next(s, steps[0]), steps[1..])
  }

  lemma {:induction false} RowsGrow(s: System, steps: seq<Step>)
    requires Inv(s) && Runs(s, steps)
    ensures |s.db.rows| <= |Run(s, steps).db.rows|
    decreases steps
  {
    if steps != [] {
      StepKeepsInv(s, steps[0]);
      RowsGrow(Next(s, steps[0]), steps[1..]);
      if s.db.rows != [] { RowMoves(s, steps[0], |s.db.rows| - 1); }
    }
  }

  /** For a fixed set of rows, claims, skips and finishes that take effect are
      bounded by the weight of the queue: it cannot be worked on for ever. */
  lemma {:induction false} RunDrains(s: System, steps: seq<Step>)
    requires Inv(s) && Runs(s, steps)
    requires |Run(s, steps).db.rows| == |s.db.rows|
    ensures EffectiveSteps(s, steps) + Total(Run(s, steps).db.rows) <= Total(s.db.rows)
    decreases steps
  {
    if steps != [] {
      StepKeepsInv(s, steps[0]);
      RowsGrow(Next(s, steps[0]), steps[1..]);
      if s.db.rows != [] { RowMoves(s, steps[0], |s.db.rows| - 1); }
      StepDrains(s, steps[0]);
      RunDrains(Next(s, steps[0]), steps[1..]);
    }
  }

  // ----- and it can always be drained -------------------------------------

  lemma {:induction false} FirstExists(rows: seq<Row>, now: int, locked: set<nat>, n: nat) returns (i: nat)
    requires n <= |rows| && exists k: nat :: k < n && Candidate(rows, now, locked, k)
    ensures i < n && Candidate(rows, now, locked, i)
    ensures forall j: nat :: j < n && Candidate(rows, now, locked, j) ==> !Earlier(rows[j], rows[i])
  {
    if exists k: nat :: k < n - 1 && Candidate(rows, now, locked, k) {
      i := FirstExists(rows, now, locked, n - 1);
      if Candidate(rows, now, locked, n - 1) && Earlier(rows[n - 1], rows[i]) {
        i := n - 1;
      }
    } else {
      i := n - 1;
    }
  }

  lemma FreshToken(issued: set<Token>) returns (token: Token)
    ensures token !in issued
  {
    var bound := Bound(issued);
    token := bound;
  }

  lemma {:induction false} Bound(issued: set<Token>) returns (bound: Token)
    ensures forall t :: t in issued ==> t < bound
    decreases |issued|
  {
    if issued == {} {
      bound := 0;
    } else {
      var t :| t in issued;
      var rest := Bound(issued - {t});
      bound := if t < rest then rest else t + 1;
      assert forall u :: u in issued ==> u == t || u in issued - {t};
    }
  }

  lemma {:induction false} HeavyRow(rows: seq<Row>) returns (i: nat)
    requires Total(rows) > 0
    ensures i < |rows| && Weight(rows[i]) > 0
  {
    if Weight(rows[0]) > 0 {
      i := 0;
    } else {
      i := HeavyRow(rows[1..]);
      i := i + 1;
    }
  }

  lemma {:induction false} RunJoin(s: System, a: seq<Step>, b: seq<Step>)
    requires Runs(s, a) && Runs(Run(s, a), b)
    ensures Runs(s, a + b) && Run(s, a + b) == Run(Run(s, a), b)
    decreases a
  {
    if a == [] {
      assert a + b == b;
    } else {
      assert (a + b)[0] == a[0] && (a + b)[1..] == a[1..] + b;
      RunJoin(Next(s, a[0]), a[1..], b);
    }
  }

  lemma RunThree(s: System, a: Step, b: Step, c: Step)
    requires Can(s, a) && Can(Next(s, a), b) && Can(Next(Next(s, a), b), c)
    ensures Runs(s, [a, b, c]) && Run(s, [a, b, c]) == Next(Next(Next(s, a), b), c)
  {
    hide Next, Can;
    assert [a, b, c][1..] == [b, c] && [b, c][1..] == [c] && [c][1..] == [];
    var s1 := Next(s, a);
    var s2 := Next(s1, b);
    assert Runs(s2, [c]) && Run(s2, [c]) == Next(s2, c);
    assert Runs(s1, [b, c]) && Run(s1, [b, c]) == Run(s2, [c]);
  }

  // Wait until row k is due, free a worker, and let it claim the first due row.
  lemma DrainSome(s: System) returns (steps: seq<Step>)
    requires Inv(s) && |s.workers| > 0 && Total(s.db.rows) > 0
    ensures Runs(s, steps) && Inv(Run(s, steps)) && |Run(s, steps).workers| == |s.workers|
    ensures |Run(s, steps).db.rows| == |s.db.rows|
    ensures Total(Run(s, steps).db.rows) < Total(s.db.rows)
  {
    var k := HeavyRow(s.db.rows);
    ShapedNow(s, k);
    var due := if s.db.rows[k].status == Pending then s.db.rows[k].nextAttempt else s.db.rows[k].lease.value;
    var until := if s.now < due then due else s.now;
    var s2 := Next(Next(s, Tick(until)), Crash(0));
    assert s2.db == s.db && s2.now == until && s2.workers[0] == Idle && |s2.workers| == |s.workers|;
    assert Candidate(s2.db.rows, s2.now, {}, k);
    hide Inv, Total;
    var i := FirstExists(s2.db.rows, s2.now, {}, |s2.db.rows|);
    var token := FreshToken(s2.issued);
    steps := [Tick(until), Crash(0), ClaimBy(0, i, {}, token)];
    RunThree(s, Tick(until), Crash(0), ClaimBy(0, i, {}, token));
    RunKeepsInv(s, steps);
    StepKeepsInv(s, Tick(until));
    StepKeepsInv(Next(s, Tick(until)), Crash(0));
    StepDrains(s2, ClaimBy(0, i, {}, token));
  }

  /** From every reachable state with a worker, some continuation empties the queue:
      no row is ever stuck in pending or sending. */
  lemma {:induction false} Drainable(s: System) returns (steps: seq<Step>)
    requires Inv(s) && |s.workers| > 0
    ensures Runs(s, steps) && Total(Run(s, steps).db.rows) == 0
    ensures |Run(s, steps).db.rows| == |s.db.rows|
    decreases Total(s.db.rows)
  {
    if Total(s.db.rows) == 0 {
      steps := [];
    } else {
      var first := DrainSome(s);
      var rest := Drainable(Run(s, first));
      RunJoin(s, first, rest);
      steps := first + rest;
    }
  }
}
