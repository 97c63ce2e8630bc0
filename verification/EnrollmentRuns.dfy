/** What every run of the enrolment operations keeps. */
module EnrollmentRuns {
  import opened Common
  import opened Enrollment

  datatype Step =
    | DoRegister(package: nat, m: Machine, secret: nat, draws: seq<nat>, newId: Id, now: real, ttl: real)
    | DoApprove(m: Machine, name: string, newSite: SiteId, now: real)
    | DoReject(m: Machine)
    | DoRotate
    | DoRetire(site: SiteId, idle: bool)

  // Generated ids are new.
  predicate Can(r: Registry, step: Step) {
    match step
    case DoRegister(_, _, _, _, newId, _, _) =>
      (forall m :: m in r.rows ==> r.rows[m].id != newId) && (forall k :: k in r.tokens ==> k.id != newId)
    case DoApprove(_, _, newSite, _) => newSite !in r.sites
    case _ => true
  }

  function Tried(r: Registry, step: Step): Outcome {
    match step
    case DoRegister(package, m, secret, draws, newId, now, ttl) =>
      Register(r, package, m, secret, draws, newId, now, ttl)
    case DoApprove(m, name, newSite, now) => Approve(r, m, name, newSite, now)
    case DoReject(m) => Reject(r, m)
    case DoRotate => Rotate(r)
    case DoRetire(site, idle) => Retire(r, site, idle)
  }

  function Next(r: Registry, step: Step): Registry { Tried(r, step).after }

  predicate Runs(r: Registry, steps: seq<Step>)
    decreases |steps|
  {
    steps == [] || (Can(r, steps[0]) && Runs(Next(r, steps[0]), steps[1..]))
  }

  function Run(r: Registry, steps: seq<Step>): Registry
    requires Runs(r, steps)
    decreases |steps|
  {
    if steps == [] then r else Run(Next(r, steps[0]), steps[1..])
  }

  // ----- the invariant ----------------------------------------------------

  predicate RowSound(r: Registry, m: Machine)
    requires m in r.rows
  {
    var row := r.rows[m];
    && row.generation <= r.generation
    && (row.status == Pending ==> row.generation == r.generation && row.site.None?)
    && (row.status == Approved ==> row.site.Some? && row.site.value in r.sites && !r.sites[row.site.value].retired
                                   && Valid(r, Token(row.id, m), row.site.value))
    && (row.site.Some? ==> row.site.value in r.sites)
  }

  predicate TokenSound(r: Registry, k: Token)
    requires k in r.tokens
  {
    && k.machine in r.rows && r.rows[k.machine].id == k.id && r.tokens[k].site in r.sites
    && (r.tokens[k].enabled ==>
          r.rows[k.machine].status == Approved && r.rows[k.machine].site == Some(r.tokens[k].site))
  }

  predicate Apart(a: Row, b: Row) {
    && a.id != b.id
    && (a.site.Some? ==> a.site != b.site)
    && (a.status == Pending && b.status == Pending ==> a.code != b.code)
  }

  /** A pending row carries the current generation; an approved row has its own active
      site and its own enabled credential; every enabled credential belongs to the
      approved row of its site; ids, sites and pending codes are never shared. */
  predicate Inv(r: Registry) {
    && (forall m :: m in r.rows ==> RowSound(r, m))
    && (forall k :: k in r.tokens ==> TokenSound(r, k))
    && (forall m, n :: m in r.rows && n in r.rows && m != n ==> Apart(r.rows[m], r.rows[n]))
  }

  lemma {:induction false} FreeCodeFree(rows: map<Machine, Row>, draws: seq<nat>)
    ensures FreeCode(rows, draws).Some? ==>
      !CodeTaken(rows, FreeCode(rows, draws).value) && FreeCode(rows, draws).value in draws
  {
    if draws != [] && CodeTaken(rows, draws[0]) {
      FreeCodeFree(rows, draws[1..]);
      assert forall d :: d in draws[1..] ==> d in draws;
    }
  }

  // One row rewritten, its sites and credentials left alone.
  lemma WriteKeeps(r: Registry, m: Machine, row: Row)
    requires Inv(r)
    requires m in r.rows ==> row.id == r.rows[m].id && r.rows[m].status != Approved
    requires m !in r.rows ==> (forall n :: n in r.rows ==> r.rows[n].id != row.id)
    requires row.generation <= r.generation && row.status != Approved
    requires row.status == Pending ==> row.generation == r.generation && row.site.None?
    requires row.site.None? || (m in r.rows && row.site == r.rows[m].site)
    requires row.status == Pending ==>
      (forall n :: n in r.rows && n != m && r.rows[n].status == Pending ==> r.rows[n].code != row.code)
    ensures Inv(Write(r, m, row))
  {
    var u := Write(r, m, row);
    forall n | n in u.rows ensures RowSound(u, n) {
      assert n in r.rows ==> RowSound(r, n);
    }
    forall k | k in u.tokens ensures TokenSound(u, k) {
      assert TokenSound(r, k);
    }
    forall a, b | a in u.rows && b in u.rows && a != b ensures Apart(u.rows[a], u.rows[b]) {
      assert a in r.rows && b in r.rows ==> Apart(r.rows[a], r.rows[b]);
    }
  }

  lemma RegisterKeeps(r: Registry, step: Step)
    requires Inv(r) && step.DoRegister? && Can(r, step)
    ensures Inv(Next(r, step))
  {
    hide Inv, Write, CodeTaken, FreeCode;
    var u := Next(r, step);
    FreeCodeFree(r.rows, step.draws);
    if u != r {
      var m := step.m;
      PendingFacts(r, m);
      if m in r.rows && r.rows[m].status == Pending {
        WriteKeeps(r, m, r.rows[m].(expires := step.now + step.ttl));
      } else {
        var code := FreeCode(r.rows, step.draws).value;
        CodesDiffer(r.rows, code);
        var id := if m in r.rows then r.rows[m].id else step.newId;
        WriteKeeps(r, m, Row(id, r.generation, step.secret, code, Pending, None, step.now + step.ttl));
      }
    }
  }

  lemma PendingFacts(r: Registry, m: Machine)
    requires Inv(r)
    ensures m in r.rows && r.rows[m].status == Pending ==>
      r.rows[m].generation == r.generation && r.rows[m].site.None?
      && (forall n :: n in r.rows && n != m && r.rows[n].status == Pending ==> r.rows[n].code != r.rows[m].code)
    ensures m in r.rows ==> r.rows[m].generation <= r.generation
  {
    if m in r.rows {
      assert RowSound(r, m);
      forall n | n in r.rows && n != m ensures Apart(r.rows[n], r.rows[m]) {
      }
    }
  }

  lemma CodesDiffer(rows: map<Machine, Row>, code: nat)
    requires !CodeTaken(rows, code)
    ensures forall n :: n in rows && rows[n].status == Pending ==> rows[n].code != code
  {
  }

  lemma ApproveKeeps(r: Registry, m: Machine, name: string, site: SiteId, now: real)
    requires Inv(r) && site !in r.sites
    ensures Inv(Approve(r, m, name, site, now).after)
  {
    hide ApproveError;
    ApproveNeedsPending(r, m, name, now);
    var u := Approve(r, m, name, site, now).after;
    if u != r {
      assert RowSound(r, m);
      forall n | n in u.rows ensures RowSound(u, n) {
        assert RowSound(r, n);
      }
      forall k | k in u.tokens ensures TokenSound(u, k) {
        assert k in r.tokens ==> TokenSound(r, k);
      }
      forall a, b | a in u.rows && b in u.rows && a != b ensures Apart(u.rows[a], u.rows[b]) {
        assert Apart(r.rows[a], r.rows[b]) && RowSound(r, a) && RowSound(r, b);
      }
    }
  }

  lemma ApproveNeedsPending(r: Registry, m: Machine, name: string, now: real)
    ensures ApproveError(r, m, name, now).None? ==> m in r.rows && r.rows[m].status == Pending
  {
  }

  lemma RejectKeeps(r: Registry, m: Machine)
    requires Inv(r)
    ensures Inv(Reject(r, m).after)
  {
    hide Inv, Write;
    PendingFacts(r, m);
    if m in r.rows && r.rows[m].status == Pending {
      WriteKeeps(r, m, r.rows[m].(status := Revoked));
    }
  }

  lemma RotateKeeps(r: Registry)
    requires Inv(r)
    ensures Inv(Rotate(r).after)
  {
    var u := Rotate(r).after;
    forall n | n in u.rows ensures RowSound(u, n) {
      assert RowSound(r, n);
    }
    forall k | k in u.tokens ensures TokenSound(u, k) {
      assert TokenSound(r, k);
    }
    forall a, b | a in u.rows && b in u.rows && a != b ensures Apart(u.rows[a], u.rows[b]) {
      assert Apart(r.rows[a], r.rows[b]);
    }
  }

  lemma RetireKeeps(r: Registry, site: SiteId, idle: bool)
    requires Inv(r)
    ensures Inv(Retire(r, site, idle).after)
  {
    var u := Retire(r, site, idle).after;
    if u != r {
      forall n | n in u.rows ensures RowSound(u, n) {
        assert RowSound(r, n);
      }
      forall k | k in u.tokens ensures TokenSound(u, k) {
        assert TokenSound(r, k);
      }
      forall a, b | a in u.rows && b in u.rows && a != b ensures Apart(u.rows[a], u.rows[b]) {
        assert Apart(r.rows[a], r.rows[b]);
      }
    }
  }

  lemma StepKeepsInv(r: Registry, step: Step)
    requires Inv(r) && Can(r, step)
    ensures Inv(Next(r, step))
  {
    hide Inv, Register, Approve, Reject, Rotate, Retire;
    match step
    case DoRegister(_, _, _, _, _, _, _) => RegisterKeeps(r, step);
    case DoApprove(m, name, newSite, now) => ApproveKeeps(r, m, name, newSite, now);
    case DoReject(m) => RejectKeeps(r, m);
    case DoRotate => RotateKeeps(r);
    case DoRetire(site, idle) => RetireKeeps(r, site, idle);
  }

  lemma {:induction false} RunKeepsInv(r: Registry, steps: seq<Step>)
    requires Inv(r) && Runs(r, steps)
    ensures Inv(Run(r, steps))
    decreases |steps|
  {
    hide Inv, Next, Can;
    if steps != [] {
      StepKeepsInv(r, steps[0]);
      RunKeepsInv(Next(r, steps[0]), steps[1..]);
    }
  }

  // ----- revoked machines -------------------------------------------------

  predicate RevokedSince(r: Registry, m: Machine, generation: nat) {
    m in r.rows && r.rows[m].generation >= generation
    && (r.rows[m].generation == generation ==> r.rows[m].status == Revoked) && r.rows[m].generation <= r.generation
  }

  lemma StepKeepsRevoked(r: Registry, step: Step, m: Machine, generation: nat)
    requires RevokedSince(r, m, generation)
    ensures RevokedSince(Next(r, step), m, generation)
  {
    hide FreeCode, ApproveError, WaitingMachines, Valid;
    if step.DoApprove? {
      ApproveNeedsPending(r, step.m, step.name, step.now);
    }
  }

  /** A machine rejected, rotated out or retired under some generation is only ever
      pending or approved again under a strictly newer one. */
  lemma RevokedUntilNewer(r: Registry, steps: seq<Step>, m: Machine)
    requires Inv(r) && Runs(r, steps) && m in r.rows && r.rows[m].status == Revoked
    ensures var u := Run(r, steps); m in u.rows && (u.rows[m].status != Revoked ==>
      u.rows[m].generation > r.rows[m].generation && u.generation > r.rows[m].generation)
  {
    hide Next, Can;
    assert RowSound(r, m);
    RevokedRun(r, steps, m, r.rows[m].generation);
  }

  lemma {:induction false} RevokedRun(r: Registry, steps: seq<Step>, m: Machine, generation: nat)
    requires Runs(r, steps) && RevokedSince(r, m, generation)
    ensures RevokedSince(Run(r, steps), m, generation)
    decreases |steps|
  {
    hide Next, Can, RevokedSince;
    if steps != [] {
      StepKeepsRevoked(r, steps[0], m, generation);
      RevokedRun(Next(r, steps[0]), steps[1..], m, generation);
    }
  }

  // ----- approved machines ------------------------------------------------

  /** Rotation revokes every pending machine and touches no approved one, its site or
      its credential. */
  lemma RotationSparesApproved(r: Registry, m: Machine)
    requires m in r.rows
    ensures var u := Rotate(r).after;
      && u.sites == r.sites && u.tokens == r.tokens && m in u.rows
      && (r.rows[m].status == Approved ==> u.rows[m] == r.rows[m])
      && u.rows[m].status != Pending
  {
  }

  lemma RegistersAgain(r: Registry, m: Machine, draws: seq<nat>, newId: Id, now: real, ttl: real)
    requires Inv(r) && m in r.rows && r.rows[m].status == Approved
    ensures Register(r, r.generation, m, r.rows[m].secret, draws, newId, now, ttl)
            == Outcome(Welcome(r.rows[m].site.value, Token(r.rows[m].id, m)), r)
  {
    assert RowSound(r, m);
  }

  // Once issued, the credential pins the machine: approved at its site or never again.
  predicate Pinned(r: Registry, m: Machine, id: Id, site: SiteId) {
    && m in r.rows && r.rows[m].id == id && Token(id, m) in r.tokens
    && (r.rows[m].status == Approved ==> r.rows[m].site == Some(site))
    && r.tokens[Token(id, m)].site == site
  }

  predicate Spent(r: Registry, m: Machine, id: Id) {
    m in r.rows && r.rows[m].id == id && r.rows[m].status != Approved && Token(id, m) in r.tokens
  }

  lemma StepKeepsPinned(r: Registry, step: Step, m: Machine, id: Id, site: SiteId)
    requires Pinned(r, m, id, site)
    ensures Pinned(Next(r, step), m, id, site)
    ensures Spent(r, m, id) ==> Spent(Next(r, step), m, id)
  {
    hide FreeCode, ApproveError, WaitingMachines, Valid;
    if step.DoApprove? {
      ApproveNeedsPending(r, step.m, step.name, step.now);
    }
  }

  lemma {:induction false} PinnedRun(r: Registry, steps: seq<Step>, m: Machine, id: Id, site: SiteId)
    requires Runs(r, steps) && Pinned(r, m, id, site)
    ensures Pinned(Run(r, steps), m, id, site)
    ensures Spent(r, m, id) ==> Spent(Run(r, steps), m, id)
    decreases |steps|
  {
    hide Next, Can, Pinned, Spent;
    if steps != [] {
      StepKeepsPinned(r, steps[0], m, id, site);
      PinnedRun(Next(r, steps[0]), steps[1..], m, id, site);
    }
  }

  /** At any two moments of a run at which a machine is approved it has the same site
      and the same token. */
  lemma SameSiteForGood(r: Registry, steps: seq<Step>, m: Machine)
    requires Inv(r) && Runs(r, steps) && m in r.rows && r.rows[m].status == Approved
    ensures var u := Run(r, steps);
      m in u.rows && u.rows[m].id == r.rows[m].id && (u.rows[m].status == Approved ==> u.rows[m].site == r.rows[m].site)
  {
    hide Next, Can;
    assert RowSound(r, m);
    PinnedRun(r, steps, m, r.rows[m].id, r.rows[m].site.value);
  }

  /** However long after its approval, a machine that is still approved and registers
      again with the current package and its secret gets the same site and the same
      token, and nothing changes. */
  lemma ReRegister(r: Registry, steps: seq<Step>, m: Machine, draws: seq<nat>, newId: Id, now: real, ttl: real)
    requires Inv(r) && Runs(r, steps) && m in r.rows && r.rows[m].status == Approved
    requires m in Run(r, steps).rows && Run(r, steps).rows[m].status == Approved
    ensures var u := Run(r, steps);
      r.rows[m].site.Some?
      && Register(u, u.generation, m, u.rows[m].secret, draws, newId, now, ttl)
         == Outcome(Welcome(r.rows[m].site.value, Token(r.rows[m].id, m)), u)
  {
    hide Next, Can, Register, Runs, Run;
    assert RowSound(r, m);
    RunKeepsInv(r, steps);
    SameSiteForGood(r, steps, m);
    RegistersAgain(Run(r, steps), m, draws, newId, now, ttl);
  }

  /** An approval that passes its own checks succeeds exactly when no credential was
      ever issued to the enrolment: the token is a digest of its id and machine, and the
      disabled credential of a retired site still holds that digest. */
  lemma ApproveSucceedsIff(r: Registry, m: Machine, name: string, site: SiteId, now: real)
    requires Inv(r) && site !in r.sites && ApproveError(r, m, name, now).None?
    ensures Approve(r, m, name, site, now).reply == Granted(site) <==> (forall k :: k in r.tokens ==> k.machine != m)
  {
    ApproveNeedsPending(r, m, name, now);
    forall k | k in r.tokens && k.machine == m ensures k == Token(r.rows[m].id, m) {
      assert TokenSound(r, k);
    }
  }

  // Its site retired, the package rotated, the machine registers with the new one.
  function ComeBack(r: Registry, site: SiteId, m: Machine, secret: nat, code: nat, newId: Id, now: real,
                    ttl: real): seq<Step>
  {
    [DoRetire(site, true), DoRotate, DoRegister(r.generation + 1, m, secret, [code], newId, now, ttl)]
  }

  predicate NewId(r: Registry, id: Id) {
    (forall n :: n in r.rows ==> r.rows[n].id != id) && (forall k :: k in r.tokens ==> k.id != id)
  }

  // Waiting for a decision that passes every check of approval and still fails.
  predicate Stranded(r: Registry, m: Machine, name: string, site: SiteId, now: real) {
    && m in r.rows && r.rows[m].status == Pending && r.rows[m].generation == r.generation
    && ApproveError(r, m, name, now).None? && Approve(r, m, name, site, now) == Outcome(Denied(500), r)
  }

  /** Every approved machine can come back after its site is retired, and is then
      stranded: it waits under the newer package, approval finds nothing wrong with it,
      and the approval fails on the stored token hash. */
  lemma RetiredWaitsAgain(r: Registry, site: SiteId, m: Machine, secret: nat, code: nat, newId: Id, now: real,
                          ttl: real, name: string, newSite: SiteId)
    requires Inv(r) && m in r.rows && r.rows[m].status == Approved && r.rows[m].site == Some(site)
    requires NewId(r, newId) && ttl > 0.0
    requires 1 <= |name| <= 100 && !NameUsed(r, name) && |ActiveSites(r)| <= r.maxCollectors
    ensures Runs(r, ComeBack(r, site, m, secret, code, newId, now, ttl))
    ensures Stranded(Run(r, ComeBack(r, site, m, secret, code, newId, now, ttl)), m, name, newSite, now)
  {
    hide Retire, Rotate, Register, Stranded, Inv;
    var steps := ComeBack(r, site, m, secret, code, newId, now, ttl);
    RetiredFacts(r, site, m, name);
    IdsStay(r, site, newId);
    var b := Rotate(Retire(r, site, true).after).after;
    RegistersUnderNew(b, m, secret, code, newId, now, ttl);
    StrandedAfter(b, m, secret, code, newId, now, ttl, name, newSite);
    RunThree(r, steps[0], steps[1], steps[2]);
  }

  // A registry in which m was approved once, nothing is pending, and a place is free.
  predicate Reset(r: Registry, m: Machine, name: string) {
    && m in r.rows && r.rows[m].status == Revoked && r.rows[m].generation < r.generation
    && Token(r.rows[m].id, m) in r.tokens && !NameUsed(r, name) && |ActiveSites(r)| < r.maxCollectors
    && (forall n :: n in r.rows ==> r.rows[n].status != Pending)
  }

  lemma RetiredFacts(r: Registry, site: SiteId, m: Machine, name: string)
    requires Inv(r) && m in r.rows && r.rows[m].status == Approved && r.rows[m].site == Some(site)
    requires !NameUsed(r, name) && |ActiveSites(r)| <= r.maxCollectors
    ensures var a := Retire(r, site, true).after; var b := Rotate(a).after;
      Reset(b, m, name) && b.generation == r.generation + 1
  {
    hide NameUsed;
    assert RowSound(r, m);
    var a := Retire(r, site, true).after;
    var b := Rotate(a).after;
    assert ActiveSites(b) == ActiveSites(r) - {site};
    assert site in ActiveSites(r);
    NamesStay(r, a, name);
    NamesStay(a, b, name);
  }

  lemma IdsStay(r: Registry, site: SiteId, id: Id)
    requires NewId(r, id)
    ensures NewId(Rotate(Retire(r, site, true).after).after, id)
  {
  }

  lemma NamesStay(r: Registry, u: Registry, name: string)
    requires !NameUsed(r, name)
    requires u.sites.Keys == r.sites.Keys && forall s :: s in r.sites ==> u.sites[s].name == r.sites[s].name
    ensures !NameUsed(u, name)
  {
  }

  // The registry after m registered with the current package.
  function Registered(r: Registry, m: Machine, secret: nat, code: nat, now: real, ttl: real): Registry
    requires m in r.rows
  {
    Write(r, m, Row(r.rows[m].id, r.generation, secret, code, Pending, None, now + ttl))
  }

  lemma RegistersUnderNew(r: Registry, m: Machine, secret: nat, code: nat, newId: Id, now: real, ttl: real)
    requires m in r.rows && r.rows[m].status == Revoked && r.rows[m].generation < r.generation
    requires forall n :: n in r.rows ==> r.rows[n].status != Pending
    ensures Register(r, r.generation, m, secret, [code], newId, now, ttl)
            == Outcome(Waiting, Registered(r, m, secret, code, now, ttl))
  {
    hide Write;
    assert FreeCode(r.rows, [code]) == Some(code);
  }

  lemma StrandedAfter(r: Registry, m: Machine, secret: nat, code: nat, newId: Id, now: real, ttl: real,
                      name: string, newSite: SiteId)
    requires Reset(r, m, name) && ttl > 0.0 && 1 <= |name| <= 100
    ensures Stranded(Registered(r, m, secret, code, now, ttl), m, name, newSite, now)
  {
    hide NameUsed;
    var u := Registered(r, m, secret, code, now, ttl);
    assert ActiveSites(u) == ActiveSites(r);
    NamesStay(r, u, name);
  }

  lemma RunThree(r: Registry, x: Step, y: Step, z: Step)
    requires Can(r, x) && Can(Next(r, x), y) && Can(Next(Next(r, x), y), z)
    ensures Runs(r, [x, y, z]) && Run(r, [x, y, z]) == Next(Next(Next(r, x), y), z)
  {
    hide Next, Can;
    var a := Next(r, x);
    var b := Next(a, y);
    assert [x, y, z][1..] == [y, z] && [y, z][1..] == [z] && [z][1..] == [];
    assert Runs(b, [z]) && Run(b, [z]) == Next(b, z);
    assert Runs(a, [y, z]) && Run(a, [y, z]) == Next(b, z);
  }

  /** From an empty registry: register, approve, retire, rotate, register, and the
      machine is stranded. */
  lemma StrandedFromNothing()
    ensures exists r: Registry, steps: seq<Step> ::
      r.rows == map[] && r.sites == map[] && r.tokens == map[] && Runs(r, steps)
      && Stranded(Run(r, steps), 1, "b", 2, 0.0)
  {
    var r := Registry(1, 10, map[], map[], map[]);
    var x := DoRegister(1, 1, 7, [5], 3, 0.0, 1.0);
    var y := DoApprove(1, "a", 1, 0.0);
    var b := OneApproved();
    FirstApproval();
    OneSite();
    var more := ComeBack(b, 1, 1, 7, 5, 4, 0.0, 1.0);
    hide Inv, Next, Can, ComeBack, Stranded, NameUsed, Runs, Run;
    RetiredWaitsAgain(b, 1, 1, 7, 5, 4, 0.0, 1.0, "b", 2);
    RunAfterTwo(r, x, y, more);
    assert Stranded(Run(r, [x, y] + more), 1, "b", 2, 0.0);
  }

  function OneApproved(): Registry {
    Registry(1, 10, map[1 := Row(3, 1, 7, 5, Approved, Some(1), 1.0)], map[1 := Site("a", false)],
             map[Token(3, 1) := Credential(1, true)])
  }

  lemma FirstApproval()
    ensures var r := Registry(1, 10, map[], map[], map[]);
      var x, y := DoRegister(1, 1, 7, [5], 3, 0.0, 1.0), DoApprove(1, "a", 1, 0.0);
      Can(r, x) && Can(Next(r, x), y) && Next(Next(r, x), y) == OneApproved()
  {
    var r := Registry(1, 10, map[], map[], map[]);
    var a := Registry(1, 10, map[1 := Row(3, 1, 7, 5, Pending, None, 1.0)], map[], map[]);
    assert FreeCode(map[], [5]) == Some(5);
    assert WaitingMachines(r, 0.0) == {};
    assert Next(r, DoRegister(1, 1, 7, [5], 3, 0.0, 1.0)) == a;
    assert ActiveSites(a) == {};
    assert Next(a, DoApprove(1, "a", 1, 0.0)) == OneApproved();
  }

  lemma OneSite()
    ensures Inv(OneApproved()) && !NameUsed(OneApproved(), "b") && |ActiveSites(OneApproved())| <= 10
    ensures NewId(OneApproved(), 4)
  {
    var b := OneApproved();
    assert ActiveSites(b) == {1};
    assert Lower("a")[0] != Lower("b")[0];
  }

  lemma RunAfterTwo(r: Registry, x: Step, y: Step, more: seq<Step>)
    requires Can(r, x) && Can(Next(r, x), y) && Runs(Next(Next(r, x), y), more)
    ensures Runs(r, [x, y] + more) && Run(r, [x, y] + more) == Run(Next(Next(r, x), y), more)
  {
    hide Next, Can;
    var a := Next(r, x);
    assert ([x, y] + more)[1..] == [y] + more && ([y] + more)[1..] == more;
    assert Runs(a, [y] + more) && Run(a, [y] + more) == Run(Next(a, y), more);
  }

  /** However it goes on, no run approves a machine whose site was retired. */
  lemma RetiredNeverApproved(r: Registry, site: SiteId, steps: seq<Step>, m: Machine)
    requires Inv(r) && m in r.rows && r.rows[m].status == Approved && r.rows[m].site == Some(site)
    requires Runs(Retire(r, site, true).after, steps)
    ensures m in Run(Retire(r, site, true).after, steps).rows
    ensures Run(Retire(r, site, true).after, steps).rows[m].status != Approved
  {
    assert RowSound(r, m);
    var u := Retire(r, site, true).after;
    var id := r.rows[m].id;
    assert Pinned(u, m, id, site) && Spent(u, m, id);
    hide Retire;
    PinnedRun(u, steps, m, id, site);
  }
}
