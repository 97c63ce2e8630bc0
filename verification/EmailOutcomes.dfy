/** What each transaction of the notification queue leaves in its tables, told from the
    tables before it, and what over a run makes a notice count as sent. */
module EmailOutcomes {
  import opened Common
  import opened EmailStore
  import opened EmailProtocol
  import opened EmailTheorems
  import opened SplitFinish

  // ----- claim ------------------------------------------------------------

  // Only row i differs, and of it neither the notice nor the time it was queued.
  predicate OnlyRow(db: Db, t: Db, i: nat)
    requires i < |db.rows|
  {
    && t == db.(rows := t.rows) && |t.rows| == |db.rows| && SameNoticeTarget(db.rows[i], t.rows[i])
    && t.rows[i].uid == db.rows[i].uid && t.rows[i].createdAt == db.rows[i].createdAt
    && forall j :: 0 <= j < |db.rows| && j != i ==> t.rows[j] == db.rows[j]
  }

  /** A due row is handed out under the token for five minutes exactly when nothing stops
      it and it has attempts left. Otherwise it ends there: cancelled if it was only
      queued, failed with an unknown outcome if it had been handed out. */
  lemma ClaimOutcome(db: Db, i: nat, now: int, token: Token)
    requires i < |db.rows| && Eligible(db.rows[i], now)
    requires db.rows[i].status == Pending ==> db.rows[i].attempts < 5
    ensures var r, u := db.rows[i], Claim(db, i, now, token).rows[i];
      && OnlyRow(db, Claim(db, i, now, token), i)
      && (u.status == Sending <==> !RowWithdrawn(db, r, now) && r.attempts < 5)
      && (u.status == Sending ==>
            u.claim == Some(token) && u.lease == Some(now + 300) && u.attempts == r.attempts + 1)
      && (u.status != Sending ==> u.claim.None? && u.lease.None? && u.attempts == r.attempts)
      && (r.status == Pending && u.status != Sending ==> u.status == Cancelled && u.lastError == None)
      && (r.status == Sending && u.status != Sending ==>
            u.status == Failed && u.lastError == Some(DeliveryOutcomeUnknown))
  {
  }

  /** Of the due rows nobody has locked the oldest is claimed, the smallest id breaking
      ties. */
  lemma OldestFirst(rows: seq<Row>, now: int, locked: set<nat>, i: nat, j: nat)
    requires IsFirst(rows, now, locked, i) && j < |rows| && j !in locked
    requires (rows[j].status == Pending && rows[j].nextAttempt <= now)
             || (rows[j].status == Sending && rows[j].lease.Some? && rows[j].lease.value <= now)
    ensures i !in locked && rows[i].createdAt <= rows[j].createdAt
    ensures rows[i].createdAt == rows[j].createdAt ==> rows[i].uid <= rows[j].uid
  {
    assert Candidate(rows, now, locked, j);
  }

  // ----- finish -----------------------------------------------------------

  /** Under the live claim: sent exactly without an error, then stamped with the time and
      no error; with one, cancelled when the notice is to be stopped, failed at the fifth
      attempt of one that is not, and otherwise queued again after the back-off. Any other
      finish changes nothing. */
  lemma FinishOutcome(s: System, w: nat, error: Option<Error>)
    requires Inv(s) && Can(s, FinishBy(w, error))
    ensures var t, job := Next(s, FinishBy(w, error)), s.workers[w].job;
      && job.index < |s.db.rows|
      && (!Live(s.db.rows[job.index], job) ==> t.db == s.db)
      && (Live(s.db.rows[job.index], job) ==>
            OnlyRow(s.db, t.db, job.index)
            && Decided(s.db.rows[job.index], t.db.rows[job.index], error, s.now,
                       RowWithdrawn(s.db, s.db.rows[job.index], s.now)))
  {
    assert JobInv(s, s.workers[w].job);
    var job := s.workers[w].job;
    assert PastInv(s.db.rows[job.index], s.past[job.index], s.now, s.issued);
  }

  // What a finish makes of its row r: at is its clock, stopped what it read.
  predicate Decided(r: Row, u: Row, error: Option<Error>, at: int, stopped: bool) {
    && u.attempts == r.attempts && u.claim.None? && u.lease.None? && u.lastError == error
    && (u.status == Sent <==> error.None?)
    && u.sentAt == (if error.None? then Some(at) else r.sentAt)
    && (u.status == Cancelled <==> error.Some? && stopped)
    && (u.status == Failed <==> error.Some? && !stopped && r.attempts == 5)
    && (u.status == Pending <==> error.Some? && !stopped && r.attempts < 5)
    && (u.status == Pending && r.attempts >= 1 ==> u.nextAttempt == at + Backoff(r.attempts))
  }

  /** The same when anything may commit between the reads and the write: the reads and
      their clock decide. */
  lemma SplitOutcome(r: Race, w: nat, error: Option<Error>, steps: seq<RaceStep>)
    requires Core(r) && MayStep(r, Read(w, error)) && LeavesAlone(steps, w)
    requires RaceRuns(After(r, Read(w, error)), steps)
    ensures var m := RaceRun(After(r, Read(w, error)), steps); MayStep(m, Write(w))
    ensures var m := RaceRun(After(r, Read(w, error)), steps);
      var t, job := After(m, Write(w)).s, r.s.workers[w].job;
      && job.index < |m.s.db.rows|
      && (!Live(m.s.db.rows[job.index], job) ==> t.db == m.s.db)
      && (Live(m.s.db.rows[job.index], job) ==>
            OnlyRow(m.s.db, t.db, job.index)
            && Decided(m.s.db.rows[job.index], t.db.rows[job.index], error, r.s.now,
                       RowWithdrawn(r.s.db, m.s.db.rows[job.index], r.s.now)))
  {
    var a := After(r, Read(w, error));
    StepKeepsCore(r, Read(w, error));
    assert a.verdicts[w] == VerdictOf(r.s, r.s.workers[w].job, error);
    hide Core, After, MayStep, VerdictOf;
    VerdictKept(a, steps, w);
    WriteDecides(r.s, RaceRun(a, steps), w, error);
  }

  lemma WriteDecides(s: System, m: Race, w: nat, error: Option<Error>)
    requires Core(m) && Working(m.s, w) && w in m.verdicts
    requires m.verdicts[w] == VerdictOf(s, m.s.workers[w].job, error)
    ensures MayStep(m, Write(w))
    ensures var t, job := After(m, Write(w)).s, m.s.workers[w].job;
      && job.index < |m.s.db.rows|
      && (!Live(m.s.db.rows[job.index], job) ==> t.db == m.s.db)
      && (Live(m.s.db.rows[job.index], job) ==>
            OnlyRow(m.s.db, t.db, job.index)
            && Decided(m.s.db.rows[job.index], t.db.rows[job.index], error, s.now,
                       RowWithdrawn(s.db, m.s.db.rows[job.index], s.now)))
  {
    hide Withdrawn, Known, PolicyInv, UniqueInv, Sound;
    var job := m.s.workers[w].job;
    assert JobInv(m.s, job);
    assert PastInv(m.s.db.rows[job.index], m.s.past[job.index], m.s.now, m.s.issued);
    assert RowInv(m.s.db.rows[job.index]);
  }

  // ----- sent, over runs --------------------------------------------------

  ghost predicate IsSent(s: System, i: nat) { i < |s.db.rows| && s.db.rows[i].status == Sent }

  // The worker reports a delivery of row i under the row's live claim.
  ghost predicate Delivers(s: System, step: Step, i: nat)
    requires Can(s, step)
  {
    && step.FinishBy? && step.error.None? && s.workers[step.w].job.index == i
    && i < |s.db.rows| && Live(s.db.rows[i], s.workers[step.w].job)
  }

  ghost predicate DeliveredIn(s: System, steps: seq<Step>, i: nat)
    requires Runs(s, steps)
    decreases |steps|
  {
    steps != [] && (Delivers(s, steps[0], i) || DeliveredIn(Next(s, steps[0]), steps[1..], i))
  }

  lemma NewRowsPending(s: System, step: Step, i: nat)
    requires Can(s, step) && |s.db.rows| <= i < |Next(s, step).db.rows|
    ensures Next(s, step).db.rows[i].status == Pending && Next(s, step).db.rows[i].sentAt.None?
  {
    if Plain(step) { PlainEvolves(s, step); }
  }

  lemma StepSends(s: System, step: Step, i: nat)
    requires Inv(s) && Can(s, step)
    ensures IsSent(Next(s, step), i) <==> IsSent(s, i) || Delivers(s, step, i)
  {
    if i < |s.db.rows| {
      RowMoves(s, step, i);
    } else if i < |Next(s, step).db.rows| {
      NewRowsPending(s, step, i);
    }
  }

  /** Over every run a notice is sent exactly when some worker reported its delivery under
      a claim still live then. */
  lemma {:induction false} SentIff(s: System, steps: seq<Step>, i: nat)
    requires Inv(s) && Runs(s, steps)
    ensures IsSent(Run(s, steps), i) <==> IsSent(s, i) || DeliveredIn(s, steps, i)
    decreases |steps|
  {
    hide Inv, Next, Can, IsSent, Delivers;
    if steps != [] {
      StepSends(s, steps[0], i);
      StepKeepsInv(s, steps[0]);
      SentIff(Next(s, steps[0]), steps[1..], i);
    }
  }

  // A sent row has a time of sending and no error; no other row has a time.
  predicate Stamped(r: Row) {
    (r.status == Sent <==> r.sentAt.Some?) && (r.status == Sent ==> r.lastError.None?)
    && (r.status == Failed ==> r.lastError.Some?)
  }

  lemma StepStamps(s: System, step: Step)
    requires Inv(s) && Can(s, step) && forall i :: 0 <= i < |s.db.rows| ==> Stamped(s.db.rows[i])
    ensures forall i :: 0 <= i < |Next(s, step).db.rows| ==> Stamped(Next(s, step).db.rows[i])
  {
    forall i | 0 <= i < |Next(s, step).db.rows| ensures Stamped(Next(s, step).db.rows[i]) {
      if i < |s.db.rows| {
        RowMoves(s, step, i);
      } else {
        NewRowsPending(s, step, i);
      }
    }
  }

  lemma {:induction false} StampsKept(s: System, steps: seq<Step>)
    requires Inv(s) && Runs(s, steps) && forall i :: 0 <= i < |s.db.rows| ==> Stamped(s.db.rows[i])
    ensures forall i :: 0 <= i < |Run(s, steps).db.rows| ==> Stamped(Run(s, steps).db.rows[i])
    decreases |steps|
  {
    hide Inv, Next, Can, Stamped;
    if steps != [] {
      StepStamps(s, steps[0]);
      StepKeepsInv(s, steps[0]);
      StampsKept(Next(s, steps[0]), steps[1..]);
    }
  }

  /** In every reachable state exactly the sent rows carry a time of sending, none of them
      an error, and every failed row its error. */
  lemma EveryRowStamped(s: System, steps: seq<Step>, i: nat)
    requires Init(s) && Runs(s, steps) && i < |Run(s, steps).db.rows|
    ensures Stamped(Run(s, steps).db.rows[i])
  {
    InitInv(s);
    StampsKept(s, steps);
  }

  ghost predicate RaceDelivers(r: Race, step: RaceStep, i: nat)
    requires MayStep(r, step)
  {
    && step.Write? && r.verdicts[step.w].error.None? && r.s.workers[step.w].job.index == i
    && i < |r.s.db.rows| && Live(r.s.db.rows[i], r.s.workers[step.w].job)
  }

  ghost predicate RaceDelivered(r: Race, steps: seq<RaceStep>, i: nat)
    requires RaceRuns(r, steps)
    decreases |steps|
  {
    steps != [] && (RaceDelivers(r, steps[0], i) || RaceDelivered(After(r, steps[0]), steps[1..], i))
  }

  // A verdict says sent exactly when it carries no error.
  ghost predicate VerdictsFair(r: Race) {
    forall w :: w in r.verdicts ==> (r.verdicts[w].status == Sent <==> r.verdicts[w].error.None?)
  }

  lemma VerdictsStayFair(r: Race, step: RaceStep)
    requires VerdictsFair(r) && MayStep(r, step)
    ensures VerdictsFair(After(r, step))
  {
    hide Next, Can, Withdrawn, Written;
  }

  lemma BaseSends(s: System, step: Step, i: nat)
    requires Can(s, step) && !step.FinishBy?
    ensures IsSent(Next(s, step), i) <==> IsSent(s, i)
  {
    if Plain(step) {
      hide Next, Can;
      PlainEvolves(s, step);
    } else {
      hide RowWithdrawn;
    }
  }

  lemma RaceStepSends(r: Race, step: RaceStep, i: nat)
    requires Core(r) && VerdictsFair(r) && MayStep(r, step)
    ensures IsSent(After(r, step).s, i) <==> IsSent(r.s, i) || RaceDelivers(r, step, i)
  {
    hide Next, Can, RowsInv, TokensInv, Known, PolicyInv, UniqueInv, Sound, VerdictOf;
    if step.Base? { BaseSends(r.s, step.step, i); }
  }

  /** And so it is when other transactions commit between the reads and the write of any
      finish. */
  lemma {:induction false} RaceSentIff(r: Race, steps: seq<RaceStep>, i: nat)
    requires Core(r) && VerdictsFair(r) && RaceRuns(r, steps)
    ensures IsSent(RaceRun(r, steps).s, i) <==> IsSent(r.s, i) || RaceDelivered(r, steps, i)
    decreases |steps|
  {
    hide Core, VerdictsFair, After, MayStep, IsSent, RaceDelivers;
    if steps != [] {
      RaceStepSends(r, steps[0], i);
      VerdictsStayFair(r, steps[0]);
      StepKeepsCore(r, steps[0]);
      RaceSentIff(After(r, steps[0]), steps[1..], i);
    }
  }
}
