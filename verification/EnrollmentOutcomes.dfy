/** When each enrolment operation succeeds and what it leaves, told from the registry
    before and after, and whose claim secret a run accepts. */
module EnrollmentOutcomes {
  import opened Common
  import opened Enrollment
  import opened EnrollmentRuns

  // ----- registering ------------------------------------------------------

  // Only the row of m differs.
  predicate OnlyRow(r: Registry, u: Registry, m: Machine) {
    && u == r.(rows := u.rows) && m in u.rows && u.rows.Keys == r.rows.Keys + {m}
    && forall n :: n in r.rows && n != m ==> u.rows[n] == r.rows[n]
  }

  // The package is an old one, or the machine's claim secret is not the stored one.
  predicate NotTheirs(r: Registry, package: nat, m: Machine, secret: nat) {
    package != r.generation || (m in r.rows && r.rows[m].status != Revoked && r.rows[m].secret != secret)
  }

  // The machine's place: approved at a site whose credential is live.
  predicate Holds(r: Registry, m: Machine, site: SiteId, token: Token) {
    && m in r.rows && r.rows[m].status == Approved && r.rows[m].site == Some(site)
    && token == Token(r.rows[m].id, m) && token in r.tokens && r.tokens[token] == Credential(site, true)
  }

  predicate CodeFree(rows: map<Machine, Row>, code: nat) {
    forall n :: n in rows && rows[n].status == Pending ==> rows[n].code != code
  }

  // The first draw no pending machine has.
  predicate FirstFree(rows: map<Machine, Row>, draws: seq<nat>, code: nat) {
    exists k :: 0 <= k < |draws| && draws[k] == code && CodeFree(rows, code) && NoneFree(rows, draws, k)
  }

  predicate NoneFree(rows: map<Machine, Row>, draws: seq<nat>, k: nat)
    requires k <= |draws|
  {
    forall j :: 0 <= j < k ==> !CodeFree(rows, draws[j])
  }

  lemma {:induction false} CodeDrawn(rows: map<Machine, Row>, draws: seq<nat>)
    ensures FreeCode(rows, draws).Some? ==> FirstFree(rows, draws, FreeCode(rows, draws).value)
    ensures FreeCode(rows, draws).None? <==> NoneFree(rows, draws, |draws|)
    decreases |draws|
  {
    if draws != [] {
      assert CodeTaken(rows, draws[0]) <==> !CodeFree(rows, draws[0]);
      var rest := draws[1..];
      CodeDrawn(rows, rest);
      if CodeTaken(rows, draws[0]) {
        forall k: nat | k <= |rest| ensures NoneFree(rows, rest, k) <==> NoneFree(rows, draws, k + 1) {
          assert forall j :: 0 <= j < k ==> rest[j] == draws[j + 1];
          assert forall j :: 0 < j < k + 1 ==> draws[j] == rest[j - 1];
        }
        if FreeCode(rows, rest).Some? {
          var k :| 0 <= k < |rest| && rest[k] == FreeCode(rows, rest).value && CodeFree(rows, rest[k])
                   && NoneFree(rows, rest, k);
          assert draws[k + 1] == rest[k] && NoneFree(rows, draws, k + 1);
        }
      } else {
        assert NoneFree(rows, draws, 0);
      }
    }
  }

  // The row a registration that is not yet decided leaves.
  predicate Queued(r: Registry, u: Registry, m: Machine, secret: nat, draws: seq<nat>, newId: Id, until: real)
    requires m in u.rows
  {
    var row := u.rows[m];
    && row.status == Pending && row.secret == secret && row.expires == until
    && (m in r.rows && r.rows[m].status == Pending ==> row == r.rows[m].(expires := until))
    && (m in r.rows ==> row.id == r.rows[m].id) && (m !in r.rows ==> row.id == newId)
    && (m !in r.rows || r.rows[m].status == Revoked ==>
          row.generation == r.generation && row.site.None? && FirstFree(r.rows, draws, row.code))
  }

  // Too many machines wait already, or this one was turned away under this package.
  predicate Crowded(r: Registry, m: Machine, now: real) {
    && m !in r.rows
    && |set n | n in r.rows && r.rows[n].status == Pending && r.rows[n].expires > now| >= 2 * r.maxCollectors
  }

  predicate TurnedAway(r: Registry, m: Machine) {
    m in r.rows && r.rows[m].status == Revoked && r.rows[m].generation >= r.generation
  }

  predicate Lapsed(r: Registry, m: Machine) {
    && m in r.rows && r.rows[m].status == Approved
    && !(r.rows[m].site.Some? && Holds(r, m, r.rows[m].site.value, Token(r.rows[m].id, m)))
  }

  // No code can be given to a machine that needs one.
  predicate OutOfCodes(r: Registry, m: Machine, draws: seq<nat>) {
    (m !in r.rows || r.rows[m].status == Revoked) && NoneFree(r.rows, draws, |draws|)
  }

  /** The answer to a registration: refused with 401 for an old package or a wrong claim
      secret; with 403 when turned away under this package or approved without a live
      credential; with 429 and 503 for want of room or of a code. Otherwise an approved
      machine gets its own site and token, and any other one waits. Only waiting writes. */
  lemma RegisterOutcome(r: Registry, package: nat, m: Machine, secret: nat, draws: seq<nat>, newId: Id, now: real,
                        ttl: real)
    ensures var out := Register(r, package, m, secret, draws, newId, now, ttl);
      && (out.reply == Denied(401) <==> NotTheirs(r, package, m, secret))
      && (out.reply == Denied(403) <==> !NotTheirs(r, package, m, secret) && (TurnedAway(r, m) || Lapsed(r, m)))
      && (out.reply == Denied(429) <==> !NotTheirs(r, package, m, secret) && Crowded(r, m, now))
      && (out.reply == Denied(503) <==>
            !NotTheirs(r, package, m, secret) && !TurnedAway(r, m) && !Crowded(r, m, now) && OutOfCodes(r, m, draws))
      && (out.reply.Denied? ==> out.reply.status in {401, 403, 429, 503})
    ensures var out := Register(r, package, m, secret, draws, newId, now, ttl);
      && (out.reply.Welcome? || out.reply.Waiting? || out.reply.Denied?)
      && (!out.reply.Waiting? ==> out.after == r)
      && (out.reply.Welcome? ==> Holds(r, m, out.reply.site, out.reply.token))
      && (out.reply.Waiting? ==>
            OnlyRow(r, out.after, m) && (m in r.rows ==> r.rows[m].status != Approved)
            && Queued(r, out.after, m, secret, draws, newId, now + ttl))
  {
    hide FirstFree, NoneFree, FreeCode, WaitingMachines;
    CodeDrawn(r.rows, draws);
    WaitingIs(r, now);
  }

  lemma WaitingIs(r: Registry, now: real)
    ensures WaitingMachines(r, now) == set n | n in r.rows && r.rows[n].status == Pending && r.rows[n].expires > now
  {
  }

  // ----- whose secret a run accepts ---------------------------------------

  // The secret of the machine's last registration that a run accepted.
  function LastSecret(r: Registry, steps: seq<Step>, m: Machine, last: Option<nat>): Option<nat>
    requires Runs(r, steps)
    decreases |steps|
  {
    if steps == [] then last
    else
      var step := steps[0];
      var accepted := step.DoRegister? && step.m == m && Tried(r, step).reply.Waiting?;
      LastSecret(Next(r, step), steps[1..], m, if accepted then Some(step.secret) else last)
  }

  lemma StepSecret(r: Registry, step: Step, m: Machine)
    requires Can(r, step)
    ensures m in r.rows ==> m in Next(r, step).rows
    ensures m in Next(r, step).rows ==>
      if step.DoRegister? && step.m == m && Tried(r, step).reply.Waiting?
      then Next(r, step).rows[m].secret == step.secret
      else m in r.rows && Next(r, step).rows[m].secret == r.rows[m].secret
  {
    match step
    case DoRegister(package, n, secret, draws, newId, now, ttl) =>
      hide Register;
      RegisterOutcome(r, package, n, secret, draws, newId, now, ttl);
    case DoApprove(n, name, site, now) =>
      ApproveNeedsPending(r, n, name, now);
    case _ =>
  }

  lemma {:induction false} SecretStored(r: Registry, steps: seq<Step>, m: Machine, last: Option<nat>)
    requires Runs(r, steps) && (m in r.rows ==> last == Some(r.rows[m].secret))
    ensures m in Run(r, steps).rows ==> LastSecret(r, steps, m, last) == Some(Run(r, steps).rows[m].secret)
    decreases |steps|
  {
    hide Can, Next, Tried;
    if steps != [] {
      var step := steps[0];
      StepSecret(r, step, m);
      var accepted := step.DoRegister? && step.m == m && Tried(r, step).reply.Waiting?;
      SecretStored(Next(r, step), steps[1..], m, if accepted then Some(step.secret) else last);
    }
  }

  /** Over every run from an empty registry: whoever is welcomed presented the current
      package and the very secret the machine's last accepted registration stored, and the
      machine is approved. Without either, the answer is 401 and nothing changes. */
  lemma OnlyOwnSecret(r: Registry, steps: seq<Step>, step: Step)
    requires r.rows == map[] && Runs(r, steps) && step.DoRegister? && Can(Run(r, steps), step)
    ensures var u := Run(r, steps); var out := Tried(u, step);
      out.reply.Welcome? ==>
        && step.package == u.generation && LastSecret(r, steps, step.m, None) == Some(step.secret)
        && Holds(u, step.m, out.reply.site, out.reply.token)
    ensures var u := Run(r, steps);
      step.package != u.generation
      || (step.m in u.rows && u.rows[step.m].status != Revoked
          && LastSecret(r, steps, step.m, None) != Some(step.secret))
      ==> Tried(u, step) == Outcome(Denied(401), u)
  {
    hide Register, Runs, Run, LastSecret;
    SecretStored(r, steps, step.m, None);
    RegisterOutcome(Run(r, steps), step.package, step.m, step.secret, step.draws, step.newId, step.now, step.ttl);
  }

  // ----- deciding ---------------------------------------------------------

  predicate ApproveAllowed(r: Registry, m: Machine, name: string, now: real) {
    && 1 <= |name| <= 100 && m in r.rows && r.rows[m].status == Pending && r.rows[m].expires > now
    && (forall s :: s in r.sites ==> Lower(r.sites[s].name) != Lower(name))
    && |set s | s in r.sites && !r.sites[s].retired| < r.maxCollectors
    && Token(r.rows[m].id, m) !in r.tokens
  }

  // What each status of a refused approval says.
  predicate ApproveRefused(r: Registry, m: Machine, name: string, now: real, status: nat) {
    match status
    case 400 => !(1 <= |name| <= 100) || |set s | s in r.sites && !r.sites[s].retired| >= r.maxCollectors
    case 409 =>
      || m !in r.rows || r.rows[m].status != Pending || r.rows[m].expires <= now
      || exists s :: s in r.sites && Lower(r.sites[s].name) == Lower(name)
    case 500 => m in r.rows && Token(r.rows[m].id, m) in r.tokens
    case _ => false
  }

  /** Approval succeeds exactly for a machine whose registration still waits, under a new
      site name, with a place free, and with no credential ever issued to it; site,
      credential and row then come together. */
  lemma ApproveOutcome(r: Registry, m: Machine, name: string, site: SiteId, now: real)
    ensures var out := Approve(r, m, name, site, now);
      && (out.reply.Granted? <==> ApproveAllowed(r, m, name, now))
      && (out.reply.Granted? || out.reply.Denied?) && (out.reply.Denied? ==> out.after == r)
      && (out.reply.Denied? ==> ApproveRefused(r, m, name, now, out.reply.status))
      && (out.reply.Granted? ==>
            && out.reply.id == site
            && out.after == r.(sites := r.sites[site := Site(name, false)],
                               tokens := r.tokens[Token(r.rows[m].id, m) := Credential(site, true)],
                               rows := out.after.rows)
            && OnlyRow(r, r.(rows := out.after.rows), m)
            && out.after.rows[m] == r.rows[m].(status := Approved, site := Some(site)))
  {
    assert ActiveSites(r) == set s | s in r.sites && !r.sites[s].retired;
  }

  /** Rejection revokes exactly a waiting machine. */
  lemma RejectOutcome(r: Registry, m: Machine)
    ensures var out := Reject(r, m);
      && (out.reply == Fine <==> m in r.rows && r.rows[m].status == Pending)
      && (out.reply != Fine ==> out == Outcome(Denied(404), r))
      && (out.reply == Fine ==>
            OnlyRow(r, out.after, m) && out.after.rows[m] == r.rows[m].(status := Revoked))
  {
  }

  /** A rotation issues the next package and revokes exactly the waiting machines. */
  lemma RotateOutcome(r: Registry)
    ensures var u := Rotate(r).after;
      && u == r.(generation := r.generation + 1, rows := u.rows) && u.rows.Keys == r.rows.Keys
      && forall m :: m in r.rows ==>
           u.rows[m] == if r.rows[m].status == Pending then r.rows[m].(status := Revoked) else r.rows[m]
  {
  }

  /** A site is retired exactly when it is idle, or already was; it then takes its
      credentials and its machine's enrolment with it, and nothing else. */
  lemma RetireOutcome(r: Registry, site: SiteId, idle: bool)
    ensures var out := Retire(r, site, idle); var u := out.after;
      && (out.reply == Fine <==> site in r.sites && (r.sites[site].retired || idle))
      && (out.reply != Fine || r.sites[site].retired ==> u == r)
      && (out.reply != Fine ==> out.reply == Denied(if site in r.sites then 409 else 404))
      && (out.reply == Fine && !r.sites[site].retired ==>
            && u == r.(sites := r.sites[site := Site(r.sites[site].name, true)], tokens := u.tokens, rows := u.rows)
            && u.tokens.Keys == r.tokens.Keys && u.rows.Keys == r.rows.Keys
            && (forall k :: k in r.tokens ==>
                  u.tokens[k] == if r.tokens[k].site == site then Credential(site, false) else r.tokens[k])
            && (forall m :: m in r.rows ==>
                  u.rows[m] == if r.rows[m].site == Some(site) then r.rows[m].(status := Revoked) else r.rows[m]))
  {
  }

  // ----- how many collectors ----------------------------------------------

  // No more live sites than the licence allows, and no two sites of one name.
  predicate Licensed(r: Registry) {
    && |ActiveSites(r)| <= r.maxCollectors
    && forall s, x :: s in r.sites && x in r.sites && s != x ==> Lower(r.sites[s].name) != Lower(r.sites[x].name)
  }

  lemma Fewer(a: set<SiteId>, b: set<SiteId>)
    requires a <= b
    ensures |a| <= |b|
  {
    if a != b {
      var x :| x in b && x !in a;
      Fewer(a, b - {x});
    }
  }

  lemma SameSites(r: Registry, u: Registry)
    requires Licensed(r) && u.sites == r.sites && u.maxCollectors == r.maxCollectors
    ensures Licensed(u)
  {
    assert ActiveSites(u) == ActiveSites(r);
  }

  lemma ApproveLicensed(r: Registry, m: Machine, name: string, site: SiteId, now: real)
    requires Licensed(r) && site !in r.sites
    ensures Licensed(Approve(r, m, name, site, now).after)
  {
    hide Approve, NameUsed;
    ApproveOutcome(r, m, name, site, now);
    var u := Approve(r, m, name, site, now).after;
    if u != r {
      assert ActiveSites(u) == ActiveSites(r) + {site};
      assert ActiveSites(r) == set s | s in r.sites && !r.sites[s].retired;
    }
  }

  lemma RetireLicensed(r: Registry, site: SiteId, idle: bool)
    requires Licensed(r)
    ensures Licensed(Retire(r, site, idle).after)
  {
    Fewer(ActiveSites(Retire(r, site, idle).after), ActiveSites(r));
  }

  lemma StepLicensed(r: Registry, step: Step)
    requires Licensed(r) && Can(r, step)
    ensures Licensed(Next(r, step))
  {
    hide Licensed, Register, Approve, Retire;
    match step
    case DoRegister(package, m, secret, draws, newId, now, ttl) =>
      RegisterOutcome(r, package, m, secret, draws, newId, now, ttl);
      SameSites(r, Next(r, step));
    case DoApprove(m, name, site, now) => ApproveLicensed(r, m, name, site, now);
    case DoRetire(site, idle) => RetireLicensed(r, site, idle);
    case _ => SameSites(r, Next(r, step));
  }

  /** Over every run the live sites stay within the licence and site names distinct. */
  lemma {:induction false} LicenceKept(r: Registry, steps: seq<Step>)
    requires Licensed(r) && Runs(r, steps)
    ensures Licensed(Run(r, steps))
    decreases |steps|
  {
    hide Licensed, Can, Next;
    if steps != [] {
      StepLicensed(r, steps[0]);
      LicenceKept(Next(r, steps[0]), steps[1..]);
    }
  }
}
