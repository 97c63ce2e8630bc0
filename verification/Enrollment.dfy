/** Collector enrolment of one customer: machines register with the customer's current
    package, an administrator approves or rejects them, packages are rotated and sites
    retired. Each operation is one transaction; a refusal changes nothing. */
module Enrollment {
  import opened Common

  type Machine = nat
  type SiteId = nat
  type Id = nat

  datatype Status = Pending | Approved | Revoked

  // secret: the hash of the machine's claim secret; code: its pairing code.
  datatype Row = Row(id: Id, generation: nat, secret: nat, code: nat, status: Status, site: Option<SiteId>,
                     expires: real)

  datatype Site = Site(name: string, retired: bool)

  // The upload token of an enrolment: a keyed digest of exactly these two.
  datatype Token = Token(id: Id, machine: Machine)

  datatype Credential = Credential(site: SiteId, enabled: bool)

  // rows: unique per machine, never deleted. tokens: keyed by token hash.
  datatype Registry = Registry(generation: nat, maxCollectors: nat, rows: map<Machine, Row>,
                               sites: map<SiteId, Site>, tokens: map<Token, Credential>)

  datatype Reply = Waiting | Welcome(site: SiteId, token: Token) | Granted(id: SiteId) | Fine | Denied(status: nat)

  datatype Outcome = Outcome(reply: Reply, after: Registry)

  // ----- registering ------------------------------------------------------

  predicate CodeTaken(rows: map<Machine, Row>, code: nat) {
    exists m :: m in rows && rows[m].status == Pending && rows[m].code == code
  }

  // The first of the eight draws no pending machine has.
  function FreeCode(rows: map<Machine, Row>, draws: seq<nat>): Option<nat> {
    if draws == [] then None
    else if CodeTaken(rows, draws[0]) then FreeCode(rows, draws[1..])
    else Some(draws[0])
  }

  predicate Valid(r: Registry, token: Token, site: SiteId) {
    token in r.tokens && r.tokens[token] == Credential(site, true)
  }

  function WaitingMachines(r: Registry, now: real): set<Machine> {
    set m | m in r.rows && r.rows[m].status == Pending && r.rows[m].expires > now
  }

  function Write(r: Registry, m: Machine, row: Row): Registry { r.(rows := r.rows[m := row]) }

  // package: the generation the presented enrolment token was made for; newId: the id a
  // new row would get.
  function Register(r: Registry, package: nat, m: Machine, secret: nat, draws: seq<nat>, newId: Id,
                    now: real, ttl: real): Outcome
  {
    if package != r.generation then Outcome(Denied(401), r)
    else if m in r.rows && r.rows[m].status != Revoked && r.rows[m].secret != secret then Outcome(Denied(401), r)
    else if m in r.rows && r.rows[m].status == Approved then
      var row := r.rows[m];
      var token := Token(row.id, m);
      if row.site.None? || !Valid(r, token, row.site.value) then Outcome(Denied(403), r)
      else Outcome(Welcome(row.site.value, token), r)
    else if m in r.rows && r.rows[m].status == Pending then
      Outcome(Waiting, Write(r, m, r.rows[m].(expires := now + ttl)))
    else if m in r.rows && r.rows[m].generation >= r.generation then Outcome(Denied(403), r)
    else if m !in r.rows && |WaitingMachines(r, now)| >= 2 * r.maxCollectors then Outcome(Denied(429), r)
    else
      var id := if m in r.rows then r.rows[m].id else newId;
      match FreeCode(r.rows, draws)
      case None => Outcome(Denied(503), r)
      case Some(code) => Outcome(Waiting, Write(r, m, Row(id, r.generation, secret, code, Pending, None, now + ttl)))
  }

  // ----- deciding ---------------------------------------------------------

  predicate NameUsed(r: Registry, name: string) {
    exists s :: s in r.sites && Lower(r.sites[s].name) == Lower(name)
  }

  function ActiveSites(r: Registry): set<SiteId> { set s | s in r.sites && !r.sites[s].retired }

  // Everything approval checks itself, before it writes.
  function ApproveError(r: Registry, m: Machine, name: string, now: real): Option<nat> {
    if !(1 <= |name| <= 100) then Some(400)
    else if m !in r.rows || r.rows[m].status != Pending || r.rows[m].expires <= now then Some(409)
    else if NameUsed(r, name) then Some(409)
    else if |ActiveSites(r)| >= r.maxCollectors then Some(400)
    else None
  }

  // A token hash that is already stored makes the insert fail: 500, rolled back.
  function Approve(r: Registry, m: Machine, name: string, site: SiteId, now: real): Outcome {
    var error := ApproveError(r, m, name, now);
    if error.Some? then Outcome(Denied(error.value), r)
    else
      var token := Token(r.rows[m].id, m);
      if token in r.tokens then Outcome(Denied(500), r)
      else Outcome(Granted(site), r.(sites := r.sites[site := Site(name, false)],
                                     tokens := r.tokens[token := Credential(site, true)],
                                     rows := r.rows[m := r.rows[m].(status := Approved, site := Some(site))]))
  }

  function Reject(r: Registry, m: Machine): Outcome {
    if m !in r.rows || r.rows[m].status != Pending then Outcome(Denied(404), r)
    else Outcome(Fine, Write(r, m, r.rows[m].(status := Revoked)))
  }

  function RevokedPending(rows: map<Machine, Row>): map<Machine, Row> {
    map m | m in rows :: if rows[m].status == Pending then rows[m].(status := Revoked) else rows[m]
  }

  function Rotate(r: Registry): Outcome {
    Outcome(Fine, r.(generation := r.generation + 1, rows := RevokedPending(r.rows)))
  }

  function RevokedAt(rows: map<Machine, Row>, site: SiteId): map<Machine, Row> {
    map m | m in rows :: if rows[m].site == Some(site) then rows[m].(status := Revoked) else rows[m]
  }

  function DisabledAt(tokens: map<Token, Credential>, site: SiteId): map<Token, Credential> {
    map k | k in tokens :: if tokens[k].site == site then tokens[k].(enabled := false) else tokens[k]
  }

  // idle: no enabled device on the site and no recent contact from its collector.
  function Retire(r: Registry, site: SiteId, idle: bool): Outcome {
    if site !in r.sites then Outcome(Denied(404), r)
    else if r.sites[site].retired then Outcome(Fine, r)
    else if !idle then Outcome(Denied(409), r)
    else Outcome(Fine, r.(sites := r.sites[site := r.sites[site].(retired := true)],
                          tokens := DisabledAt(r.tokens, site), rows := RevokedAt(r.rows, site)))
  }
}
