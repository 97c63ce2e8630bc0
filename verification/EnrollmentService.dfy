/** The registry of one customer, and the methods that run the enrolment operations on it
    in place. */
module EnrollmentService {
  import opened Common
  import opened Enrollment
  import opened EnrollmentOutcomes

  class Service {
    const maxCollectors: nat
    var generation: nat
    var rows: map<Machine, Row>
    var sites: map<SiteId, Site>
    var tokens: map<Token, Credential>

    function Now(): Registry
      reads this
    {
      Registry(generation, maxCollectors, rows, sites, tokens)
    }

    method Allocate(draws: seq<nat>) returns (code: Option<nat>)
      ensures code == FreeCode(rows, draws)
    {
      for k := 0 to |draws|
        invariant FreeCode(rows, draws) == FreeCode(rows, draws[k..])
      {
        assert draws[k..][1..] == draws[k + 1..];
        if !CodeTaken(rows, draws[k]) {
          return Some(draws[k]);
        }
      }
      code := None;
    }

    method RegisterCollector(package: nat, m: Machine, secret: nat, draws: seq<nat>, newId: Id, now: real, ttl: real)
      returns (reply: Reply)
      modifies this
      ensures Outcome(reply, Now()) == Register(old(Now()), package, m, secret, draws, newId, now, ttl)
      ensures reply == Denied(401) <==> NotTheirs(old(Now()), package, m, secret)
      ensures !reply.Waiting? ==> Now() == old(Now())
      ensures reply.Welcome? ==> Holds(old(Now()), m, reply.site, reply.token)
      ensures reply.Waiting? ==> OnlyRow(old(Now()), Now(), m)
      ensures reply.Waiting? ==> Queued(old(Now()), Now(), m, secret, draws, newId, now + ttl)
    {
      RegisterOutcome(Now(), package, m, secret, draws, newId, now, ttl);
      if package != generation {
        return Denied(401);
      }
      if m in rows && rows[m].status != Revoked && rows[m].secret != secret {
        return Denied(401);
      }
      if m in rows && rows[m].status == Approved {
        var token := Token(rows[m].id, m);
        if rows[m].site.None? || !Valid(Now(), token, rows[m].site.value) {
          return Denied(403);
        }
        return Welcome(rows[m].site.value, token);
      }
      if m in rows && rows[m].status == Revoked {
        if rows[m].generation >= generation {
          return Denied(403);
        }
        var code := Allocate(draws);
        if code.None? {
          return Denied(503);
        }
        rows := rows[m := Row(rows[m].id, generation, secret, code.value, Pending, None, now + ttl)];
      } else if m !in rows {
        if |WaitingMachines(Now(), now)| >= 2 * maxCollectors {
          return Denied(429);
        }
        var code := Allocate(draws);
        if code.None? {
          return Denied(503);
        }
        rows := rows[m := Row(newId, generation, secret, code.value, Pending, None, now + ttl)];
      } else {
        rows := rows[m := rows[m].(expires := now + ttl)];
      }
      reply := Waiting;
    }

    method ApproveCollector(m: Machine, name: string, site: SiteId, now: real) returns (reply: Reply)
      modifies this
      ensures Outcome(reply, Now()) == Approve(old(Now()), m, name, site, now)
      ensures reply.Granted? <==> ApproveAllowed(old(Now()), m, name, now)
      ensures !reply.Granted? ==> Now() == old(Now())
      ensures reply.Granted? ==> sites == old(sites)[site := Site(name, false)]
      ensures reply.Granted? ==> m in rows && rows[m] == old(rows)[m].(status := Approved, site := Some(site))
    {
      ApproveOutcome(Now(), m, name, site, now);
      if !(1 <= |name| <= 100) {
        return Denied(400);
      }
      if m !in rows || rows[m].status != Pending || rows[m].expires <= now {
        return Denied(409);
      }
      if NameUsed(Now(), name) {
        return Denied(409);
      }
      if |ActiveSites(Now())| >= maxCollectors {
        return Denied(400);
      }
      var savedSites := sites;
      sites := sites[site := Site(name, false)];
      var token := Token(rows[m].id, m);
      if token in tokens {
        sites := savedSites;
        return Denied(500);
      }
      tokens := tokens[token := Credential(site, true)];
      rows := rows[m := rows[m].(status := Approved, site := Some(site))];
      reply := Granted(site);
    }

    method RejectCollector(m: Machine) returns (reply: Reply)
      modifies this
      ensures Outcome(reply, Now()) == Reject(old(Now()), m)
      ensures reply == Fine <==> m in old(rows) && old(rows)[m].status == Pending
      ensures reply == Fine ==> OnlyRow(old(Now()), Now(), m) && rows[m] == old(rows)[m].(status := Revoked)
    {
      RejectOutcome(Now(), m);
      if m !in rows || rows[m].status != Pending {
        return Denied(404);
      }
      rows := rows[m := rows[m].(status := Revoked)];
      reply := Fine;
    }

    method RotatePackage() returns (reply: Reply)
      modifies this
      ensures Outcome(reply, Now()) == Rotate(old(Now()))
    {
      generation := generation + 1;
      rows := RevokedPending(rows);
      reply := Fine;
    }

    method RetireCollector(site: SiteId, idle: bool) returns (reply: Reply)
      modifies this
      ensures Outcome(reply, Now()) == Retire(old(Now()), site, idle)
    {
      if site !in sites {
        return Denied(404);
      }
      if sites[site].retired {
        return Fine;
      }
      if !idle {
        return Denied(409);
      }
      sites := sites[site := sites[site].(retired := true)];
      tokens := DisabledAt(tokens, site);
      rows := RevokedAt(rows, site);
      reply := Fine;
    }
  }
}
