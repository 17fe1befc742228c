/** The macOS host and the adapters that change it (internal/darwinnet/route.go, dns.go, conflict.go).

    `Host` holds the routing table and the per-service DNS settings. Any command may fail, and a failed one may or
    may not have taken effect; an outcome is `flaky` if one of its commands failed. The kernel picks the interface of a
    gateway route itself (`egress`), which is why `Add` looks again after adding. */
module DarwinNet {
  import opened Net
  import opened Faults
  import opened TunnelModel

  type Table = map<Prefix, Route>
  type Services = map<string, Setting>

  /** The static DNS settings of one network service. */
  datatype Setting = Setting(servers: seq<Addr>, domains: seq<string>)

  function At(t: Table, d: Prefix): Option<Route> { if d in t then Some(t[d]) else None }

  /** Agreement on the compared fields: interface, reject flag and, where planned, gateway. */
  predicate Matches(current: Route, r: Route) {
    current.iface == r.iface && current.reject == r.reject && (r.gateway.IsValid() ==> current.gateway == r.gateway)
  }

  /** `routeArguments` succeeds. */
  predicate Expressible(r: Route) { r.iface != "" }

  /** The kernel can place the route at all. */
  predicate Reachable(egress: map<Addr, string>, r: Route) { r.gateway.IsValid() ==> r.gateway in egress }

  /** The table entry the kernel makes for a requested route. */
  function Realized(egress: map<Addr, string>, r: Route): Route
    requires Reachable(egress, r)
  {
    if r.gateway.IsValid() then r.(iface := egress[r.gateway]) else r
  }

  /** The kernel places the route where it was planned. */
  predicate Wired(egress: map<Addr, string>, r: Route) { Reachable(egress, r) && Realized(egress, r) == r }

  // ---------- what each adapter call may do ----------

  ghost predicate AddOutcome(egress: map<Addr, string>, flaky: bool, t: Table, r: Route, t': Table, ok: bool) {
    && (t' == t || (r.dest !in t && Reachable(egress, r) && t' == t[r.dest := Realized(egress, r)]))
    && (ok ==> r.dest !in t && Wired(egress, r) && t' == t[r.dest := r])
    && (!flaky && ValidRoute(r) && Expressible(r) && r.dest !in t && Reachable(egress, r) ==>
          t' == t[r.dest := Realized(egress, r)])
    && (!flaky && ValidRoute(r) && Expressible(r) && r.dest !in t && Wired(egress, r) ==> ok)
  }

  /** Nothing keeps the kernel from placing the route somewhere. */
  predicate Addable(egress: map<Addr, string>, t: Table, r: Route) {
    ValidRoute(r) && Expressible(r) && r.dest !in t && Reachable(egress, r)
  }

  /** Nothing stands at the destination, or something that agrees with the route. */
  predicate Removable(t: Table, r: Route) {
    ValidRoute(r) && Expressible(r) && (r.dest in t ==> ValidRoute(t[r.dest]) && Matches(t[r.dest], r))
  }

  ghost predicate RemoveOutcome(flaky: bool, t: Table, r: Route, t': Table, ok: bool) {
    && (t' == t || (r.dest in t && Matches(t[r.dest], r) && t' == t - {r.dest}))
    && (ok ==> r.dest !in t' && (r.dest in t ==> ValidRoute(t[r.dest]) && Matches(t[r.dest], r)))
    && (!flaky && Removable(t, r) ==> ok)
  }

  /** A setting that `snapshotService` can read back. */
  predicate Readable(s: Setting) {
    && (forall i :: 0 <= i < |s.servers| ==> UsableServer(s.servers[i]))
    && (forall i :: 0 <= i < |s.domains| ==> |s.domains[i]| <= 253 && !HasBlank(s.domains[i]))
  }

  function Managed(c: DNSConfig, s: Setting): Setting {
    Setting(c.servers, if c.searchDomains.Some? then c.searchDomains.value else s.domains)
  }

  /** Each component is the old one or the configured one; a success configured both. */
  ghost predicate ApplyOutcome(flaky: bool, d: Services, c: DNSConfig, d': Services, ok: bool) {
    && (d' == d || (c.serviceId in d && (d' == d[c.serviceId := d[c.serviceId].(servers := c.servers)]
                                      || d' == d[c.serviceId := Managed(c, d[c.serviceId])])))
    && (ok ==> c.serviceId in d && d' == d[c.serviceId := Managed(c, d[c.serviceId])])
    && (!flaky && ValidDNSConfig(c) && c.serviceId in d ==> ok)
  }

  predicate ServersOwned(c: DNSConfig, s: Setting) { s.servers == c.servers }
  predicate DomainsOwned(c: DNSConfig, s: Setting) { c.searchDomains.Some? ==> s.domains == c.searchDomains.value }

  predicate DomainsOriginal(o: ServiceDNS, c: DNSConfig, s: Setting) {
    c.searchDomains.Some? ==> s.domains == o.searchDomains
  }

  /** Every managed component is either what was applied or what was there before. */
  predicate Restorable(o: ServiceDNS, c: DNSConfig, s: Setting) {
    (ServersOwned(c, s) || s.servers == o.servers) && (DomainsOwned(c, s) || DomainsOriginal(o, c, s))
  }

  /** The setting with its managed components put back. */
  function Restored(o: ServiceDNS, c: DNSConfig, s: Setting): Setting {
    Setting(o.servers, if c.searchDomains.Some? then o.searchDomains else s.domains)
  }

  /** One step of a restore: components move only from the applied value to the original one. */
  predicate TowardsOriginal(o: ServiceDNS, c: DNSConfig, s: Setting, s': Setting) {
    && (s'.servers == s.servers || (ServersOwned(c, s) && s'.servers == o.servers))
    && (s'.domains == s.domains || (c.searchDomains.Some? && DomainsOwned(c, s) && s'.domains == o.searchDomains))
  }

  predicate CanRestore(d: Services, before: DNSSnapshot, c: DNSConfig) {
    && ValidDNSConfig(c) && |before.services| == 1 && before.services[0].serviceId == c.serviceId
    && c.serviceId in d && Readable(d[c.serviceId]) && Restorable(before.services[0], c, d[c.serviceId])
  }

  ghost predicate RestoreOutcome(flaky: bool, d: Services, before: DNSSnapshot, c: DNSConfig, d': Services, ok: bool) {
    && (d' == d || (c.serviceId in d && |before.services| == 1
                    && Restorable(before.services[0], c, d[c.serviceId])
                    && c.serviceId in d' && d' == d[c.serviceId := d'[c.serviceId]]
                    && TowardsOriginal(before.services[0], c, d[c.serviceId], d'[c.serviceId])))
    && (ok ==> c.serviceId in d && |before.services| == 1 && Restorable(before.services[0], c, d[c.serviceId])
               && d' == d[c.serviceId := Restored(before.services[0], c, d[c.serviceId])])
    && (!flaky && CanRestore(d, before, c) ==> ok)
  }

  // ---------- the adapters ----------

  function DefaultRoute(t: Table): Route
    requires V4_DEFAULT in t
  {
    Route(V4_DEFAULT, t[V4_DEFAULT].gateway, t[V4_DEFAULT].iface, false)
  }

  /** There is an IPv4 default route with a numeric gateway. */
  predicate HasDefault(t: Table) {
    V4_DEFAULT in t && t[V4_DEFAULT].gateway.V4? && ValidRoute(DefaultRoute(t))
  }

  datatype Inspection = InspectFailed | Missing | Found(route: Route)

  class Host {
    var routes: Table
    var dns: Services
    const egress: map<Addr, string>
    const runner: Runner

    constructor (routes: Table, dns: Services, egress: map<Addr, string>, runner: Runner)
      ensures this.routes == routes && this.dns == dns && this.egress == egress && this.runner == runner
    {
      this.routes, this.dns, this.egress, this.runner := routes, dns, egress, runner;
    }

    method InspectExact(dest: Prefix) returns (r: Inspection)
      modifies runner
      ensures runner.Went()
      ensures r.Missing? ==> dest !in routes
      ensures r.Found? ==> dest in routes && r.route == routes[dest] && ValidRoute(r.route)
      ensures r.InspectFailed? <==> !runner.Quiet() || (dest in routes && !ValidRoute(routes[dest]))
      ensures runner.run == old(runner.run) + 1 && (runner.Quiet() <==> runner.fates(old(runner.run)).Works?)
    {
      var ran := runner.Attempt();
      if !ran {
        return InspectFailed;
      }
      if dest !in routes {
        return Missing;
      }
      if !ValidRoute(routes[dest]) {
        return InspectFailed;
      }
      return Found(routes[dest]);
    }

    /** The IPv4 default route, as `route get default` reports it. */
    method Snapshot() returns (r: Option<Route>)
      modifies runner
      ensures runner.Went()
      ensures r.Some? ==> HasDefault(routes) && r.value == DefaultRoute(routes)
      ensures r.Some? <==> HasDefault(routes) && runner.Quiet()
    {
      var ran := runner.Attempt();
      if !ran || V4_DEFAULT !in routes || !routes[V4_DEFAULT].gateway.V4? {
        return None;
      }
      var route := Route(V4_DEFAULT, routes[V4_DEFAULT].gateway, routes[V4_DEFAULT].iface, false);
      if !ValidRoute(route) {
        return None;
      }
      return Some(route);
    }

    method Add(r: Route) returns (ok: bool)
      modifies this`routes, runner
      ensures runner.Went()
      ensures AddOutcome(egress, !runner.Quiet(), old(routes), r, routes, ok)
      // It inspects, adds and inspects again, and takes nothing back.
      ensures routes ==
        if Addable(egress, old(routes), r) && runner.fates(old(runner.run)).Works?
           && !runner.fates(old(runner.run) + 1).FailsBefore?
        then old(routes)[r.dest := Realized(egress, r)] else old(routes)
      ensures ok <==> Addable(egress, old(routes), r) && Wired(egress, r) && runner.Quiet()
    {
      if !ValidRoute(r) {
        return false;
      }
      var first := InspectExact(r.dest);
      if !first.Missing? || !Expressible(r) || !Reachable(egress, r) {
        return false;
      }
      var took, ran := runner.Effect();
      if took {
        routes := routes[r.dest := Realized(egress, r)];
      }
      if !ran {
        return false;
      }
      var second := InspectExact(r.dest);
      if !second.Found? || !Matches(second.route, r) {
        return false;
      }
      return true;
    }

    method Remove(r: Route) returns (ok: bool)
      modifies this`routes, runner
      ensures runner.Went()
      ensures RemoveOutcome(!runner.Quiet(), old(routes), r, routes, ok)
      ensures routes ==
        if Removable(old(routes), r) && r.dest in old(routes) && runner.fates(old(runner.run)).Works?
           && !runner.fates(old(runner.run) + 1).FailsBefore?
        then old(routes) - {r.dest} else old(routes)
      ensures Expressible(r) ==> (ok <==> Removable(old(routes), r) && runner.Quiet())
    {
      if !ValidRoute(r) {
        return false;
      }
      var found := InspectExact(r.dest);
      if found.InspectFailed? {
        return false;
      }
      if found.Missing? {
        return true;
      }
      if !Matches(found.route, r) || !Expressible(r) {
        return false;
      }
      var took, ran := runner.Effect();
      if took {
        routes := routes - {r.dest};
      }
      return ran;
    }

    /** Reads one service's settings. */
    method SnapshotService(serviceId: string) returns (r: Option<ServiceDNS>)
      modifies runner
      ensures runner.Went()
      ensures r.Some? ==> serviceId in dns && Readable(dns[serviceId])
      ensures r.Some? ==> r.value == ServiceDNS(serviceId, dns[serviceId].servers, dns[serviceId].domains)
      ensures r.Some? <==> serviceId in dns && Readable(dns[serviceId]) && runner.Quiet()
    {
      var ran := runner.Attempt();
      if !ran || serviceId !in dns {
        return None;
      }
      var current := dns[serviceId];
      for i := 0 to |current.servers|
        invariant forall k :: 0 <= k < i ==> UsableServer(current.servers[k])
      {
        if !UsableServer(current.servers[i]) {
          return None;
        }
      }
      var again := runner.Attempt();
      if !again {
        return None;
      }
      for i := 0 to |current.domains|
        invariant forall k :: 0 <= k < i ==> |current.domains[k]| <= 253 && !HasBlank(current.domains[k])
      {
        if |current.domains[i]| > 253 || HasBlank(current.domains[i]) {
          return None;
        }
      }
      return Some(ServiceDNS(serviceId, current.servers, current.domains));
    }

    method ApplyDNS(c: DNSConfig) returns (ok: bool)
      modifies this`dns, runner
      ensures runner.Went()
      ensures ApplyOutcome(!runner.Quiet(), old(dns), c, dns, ok)
      // The servers come first, and nothing is taken back.
      ensures ValidDNSConfig(c) && c.serviceId in old(dns) && !runner.fates(old(runner.run)).FailsBefore? ==>
        c.serviceId in dns && dns[c.serviceId].servers == c.servers
      ensures ok <==> ValidDNSConfig(c) && c.serviceId in old(dns) && runner.Quiet()
    {
      if !ValidDNSConfig(c) || c.serviceId !in dns {
        return false;
      }
      var before := dns;
      var took, ran := runner.Effect();
      if took {
        dns := dns[c.serviceId := dns[c.serviceId].(servers := c.servers)];
      }
      if !ran {
        return false;
      }
      if c.searchDomains.Some? {
        took, ran := runner.Effect();
        if took {
          dns := dns[c.serviceId := dns[c.serviceId].(domains := c.searchDomains.value)];
          assert dns == before[c.serviceId := Managed(c, before[c.serviceId])];
        }
        return ran;
      }
      return true;
    }

    method RestoreIfOwned(before: DNSSnapshot, c: DNSConfig) returns (ok: bool)
      modifies this`dns, runner
      ensures runner.Went()
      ensures RestoreOutcome(!runner.Quiet(), old(dns), before, c, dns, ok)
      ensures ok <==> CanRestore(old(dns), before, c) && runner.Quiet()
      // The domains come first: servers are put back only when the domains are.
      ensures dns != old(dns) && dns[c.serviceId].servers != old(dns)[c.serviceId].servers ==>
        DomainsOriginal(before.services[0], c, dns[c.serviceId])
    {
      if !ValidDNSConfig(c) || |before.services| != 1 || before.services[0].serviceId != c.serviceId {
        return false;
      }
      var snapshot := SnapshotService(c.serviceId);
      if snapshot.None? {
        return false;
      }
      var original, current := before.services[0], dns[c.serviceId];
      ghost var start := dns;
      var serversOwned, serversOriginal := current.servers == c.servers, current.servers == original.servers;
      var domainsOwned, domainsOriginal := true, true;
      if c.searchDomains.Some? {
        domainsOwned := current.domains == c.searchDomains.value;
        domainsOriginal := current.domains == original.searchDomains;
      }
      if (!serversOwned && !serversOriginal) || (!domainsOwned && !domainsOriginal) {
        return false;
      }
      if domainsOwned && !domainsOriginal {
        var took, ran := runner.Effect();
        if took {
          dns := dns[c.serviceId := dns[c.serviceId].(domains := original.searchDomains)];
        }
        if !ran {
          return false;
        }
      }
      if serversOwned && !serversOriginal {
        var took, ran := runner.Effect();
        if took {
          dns := dns[c.serviceId := dns[c.serviceId].(servers := original.servers)];
        }
        if !ran {
          return false;
        }
      }
      assert dns[c.serviceId] == Restored(original, c, current);
      assert dns == start[c.serviceId := Restored(original, c, current)];
      return true;
    }

    /** No other tunnel owns the default route or half of an address family. */
    method CheckConflicts(plan: Plan) returns (ok: bool)
      modifies runner
      ensures runner.Went()
      ensures ok ==> HasDefault(routes) && NoConflict(routes, plan)
      ensures ok <==> HasDefault(routes) && NoConflict(routes, plan) && runner.Quiet()
    {
      var snapshot := Snapshot();
      if snapshot.None? || IsUtun(snapshot.value.iface)
        || snapshot.value.gateway != plan.physicalGateway || snapshot.value.iface != plan.physicalInterface {
        return false;
      }
      var prefixes := [V4_LOW_HALF, V4_HIGH_HALF];
      if plan.policy == FullIPv4 {
        prefixes := prefixes + [V6_LOW_HALF, V6_HIGH_HALF];
      }
      for i := 0 to |prefixes|
        invariant runner.Went() && runner.Quiet() && forall k :: 0 <= k < i ==> prefixes[k] !in routes
      {
        var found := InspectExact(prefixes[i]);
        if !found.Missing? {
          return false;
        }
      }
      assert prefixes[0] == V4_LOW_HALF && prefixes[1] == V4_HIGH_HALF;
      assert plan.policy == FullIPv4 ==> prefixes[2] == V6_LOW_HALF && prefixes[3] == V6_HIGH_HALF;
      return true;
    }
  }

  predicate IsUtun(iface: string) { "utun" <= iface }

  /** What the conflict check promises of the table it accepted. */
  predicate NoConflict(t: Table, plan: Plan) {
    && V4_DEFAULT in t && !IsUtun(t[V4_DEFAULT].iface)
    && t[V4_DEFAULT].gateway == plan.physicalGateway && t[V4_DEFAULT].iface == plan.physicalInterface
    && V4_LOW_HALF !in t && V4_HIGH_HALF !in t
    && (plan.policy == FullIPv4 ==> V6_LOW_HALF !in t && V6_HIGH_HALF !in t)
  }

  // ---------- foreign state is never overwritten ----------

  /** One change of the table: a call of ours, whatever it reported, or an edit by someone else. */
  datatype Call = AddCall(route: Route, ok: bool) | RemoveCall(route: Route, ok: bool) | ForeignEdit

  ghost predicate Did(egress: map<Addr, string>, t: Table, call: Call, t': Table) {
    match call
    case AddCall(r, ok) => AddOutcome(egress, true, t, r, t', ok)
    case RemoveCall(r, ok) => RemoveOutcome(true, t, r, t', ok)
    case ForeignEdit => true
  }

  /** A foreign route stays through any number of our calls, failed or not, between any foreign edits elsewhere,
      as long as it disagrees with every route we are asked to remove; a removal aimed at it reports failure. */
  lemma {:induction false} ForeignRouteKept(egress: map<Addr, string>, ts: seq<Table>, calls: seq<Call>, d: Prefix,
                                            f: Route, k: nat)
    requires |ts| == |calls| + 1 && k < |ts| && At(ts[0], d) == Some(f)
    requires forall i :: 0 <= i < |calls| ==> Did(egress, ts[i], calls[i], ts[i + 1])
    requires forall i :: 0 <= i < |calls| && calls[i].ForeignEdit? ==> At(ts[i + 1], d) == At(ts[i], d)
    requires forall i :: 0 <= i < |calls| && calls[i].RemoveCall? && calls[i].route.dest == d ==>
      !Matches(f, calls[i].route)
    ensures At(ts[k], d) == Some(f)
    ensures k < |calls| && calls[k].RemoveCall? && calls[k].route.dest == d ==> ts[k + 1] == ts[k] && !calls[k].ok
    ensures k < |calls| && calls[k].AddCall? && calls[k].route.dest == d ==> ts[k + 1] == ts[k] && !calls[k].ok
  {
    if k > 0 {
      ForeignRouteKept(egress, ts, calls, d, f, k - 1);
      assert Did(egress, ts[k - 1], calls[k - 1], ts[k]);
    }
    assert k < |calls| ==> Did(egress, ts[k], calls[k], ts[k + 1]);
  }

  /** The same for DNS servers, with restores in place of removals: servers that are not the applied ones stay;
      if they are not the original ones either, a restore reports a conflict and writes nothing. `restores` has
      the result of each restore, and nothing where someone else edited. */
  lemma {:induction false} ForeignServersKept(before: DNSSnapshot, c: DNSConfig, ds: seq<Services>,
                                              restores: seq<Option<bool>>, v: seq<Addr>, k: nat)
    requires |ds| == |restores| + 1 && k < |ds|
    requires forall i :: 0 <= i < |ds| ==> c.serviceId in ds[i]
    requires ds[0][c.serviceId].servers == v != c.servers && |before.services| == 1
    requires forall i :: 0 <= i < |restores| && restores[i].Some? ==>
      RestoreOutcome(true, ds[i], before, c, ds[i + 1], restores[i].value)
    requires forall i :: 0 <= i < |restores| && restores[i].None? ==>
      ds[i + 1][c.serviceId].servers == ds[i][c.serviceId].servers
    ensures ds[k][c.serviceId].servers == v
    ensures k < |restores| && restores[k].Some? && v != before.services[0].servers ==>
      ds[k + 1] == ds[k] && !restores[k].value
  {
    if k > 0 {
      ForeignServersKept(before, c, ds, restores, v, k - 1);
    }
  }

  /** The settings before the `k`-th attempt. */
  function Before(d: Services, attempts: seq<Services>, k: nat): Services
    requires k <= |attempts|
  {
    if k == 0 then d else attempts[k - 1]
  }

  /** However often a restore fails half way, the setting stays restorable, and the first attempt that meets
      no failure puts back every managed component: `attempts` lists the settings after each failed try. */
  lemma {:induction false} RestoreConverges(d: Services, before: DNSSnapshot, c: DNSConfig, attempts: seq<Services>,
                                            last: Services, ok: bool)
    requires CanRestore(d, before, c)
    requires Readable(Setting(before.services[0].servers, before.services[0].searchDomains))
    requires forall k :: 0 <= k < |attempts| ==>
      RestoreOutcome(true, Before(d, attempts, k), before, c, attempts[k], false)
    requires RestoreOutcome(false, Before(d, attempts, |attempts|), before, c, last, ok)
    ensures ok && last == d[c.serviceId := Restored(before.services[0], c, d[c.serviceId])]
  {
    if attempts != [] {
      var o, n, rest := before.services[0], attempts[0], attempts[1..];
      assert RestoreOutcome(true, Before(d, attempts, 0), before, c, attempts[0], false);
      assert Restored(o, c, n[c.serviceId]) == Restored(o, c, d[c.serviceId]);
      assert n[c.serviceId := Restored(o, c, d[c.serviceId])] == d[c.serviceId := Restored(o, c, d[c.serviceId])];
      forall k | 0 <= k < |rest|
        ensures RestoreOutcome(true, Before(n, rest, k), before, c, rest[k], false)
      {
        assert Before(n, rest, k) == Before(d, attempts, k + 1);
      }
      RestoreConverges(n, before, c, rest, last, ok);
    }
  }
}
