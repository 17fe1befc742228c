/** What the planned routes mean: where packets go under longest-prefix match (section 5.1 of RFC 4632) while a
    tunnel is up, and while it is being set up or taken down (internal/tunnel/model.go,
    internal/darwinnet/conflict.go). */
module Routing {
  import opened Net
  import opened TunnelModel
  import opened DarwinNet
  import opened TunnelProtocol

  // ---------- longest-prefix match ----------

  ghost predicate Canonical(t: Table) { forall d :: d in t ==> d.IsCanonical() }

  predicate Covering(t: Table, a: Addr, d: Prefix) { d in t && d.Contains(a) }

  /** The route at `d` wins for the address. */
  ghost predicate Best(t: Table, a: Addr, d: Prefix) {
    Covering(t, a, d) && forall e :: Covering(t, a, e) ==> e.bits <= d.bits
  }

  /** The route that a packet to the address takes. */
  ghost function Lookup(t: Table, a: Addr): Option<Route> {
    if exists d :: Best(t, a, d) then var d :| Best(t, a, d); Some(t[d]) else None
  }

  /** In a table of canonical prefixes at most one route wins. */
  lemma LookupIs(t: Table, a: Addr, d: Prefix)
    requires Canonical(t) && Best(t, a, d)
    ensures Lookup(t, a) == Some(t[d])
  {
    forall e | Best(t, a, e) ensures e == d {
      assert e.bits == d.bits;
      SamePrefix(d, e, a);
    }
  }

  /** If any route covers the address, one wins. */
  lemma {:induction false} BestExists(t: Table, a: Addr, d: Prefix) returns (e: Prefix)
    requires Covering(t, a, d)
    ensures Best(t, a, e) && d.bits <= e.bits
    decreases 128 - d.bits
  {
    if c :| Covering(t, a, c) && c.bits > d.bits {
      e := BestExists(t, a, c);
    } else {
      e := d;
    }
  }

  /** If the winner of the larger table is an old route, it was the winner before. */
  lemma StillBest(base: Table, t: Table, a: Addr, e: Prefix)
    requires Canonical(base) && Canonical(t) && Best(t, a, e) && e in base && t[e] == base[e]
    requires forall d :: d in base ==> d in t
    ensures Lookup(t, a) == Lookup(base, a) == Some(base[e])
  {
    forall f | Covering(base, a, f) ensures f.bits <= e.bits {
      assert Covering(t, a, f);
    }
    assert Best(base, a, e);
    LookupIs(base, a, e);
    LookupIs(t, a, e);
  }

  // ---------- a finished tunnel ----------

  /** The table of a finished tunnel: what the base had, and the planned routes beside it. */
  lemma InstalledTable(base: Table, t: Table, plan: Plan, device: DeviceHandle)
    requires ValidPlan(plan) && ValidDevice(device) && Canonical(base)
    requires Installed(base, t, plan, Some(device), plan.StepCount())
    ensures Canonical(t)
    ensures forall d :: d in base ==> d in t && t[d] == base[d]
    ensures forall d :: d in t && d !in base ==> PlannedBelow(plan, Some(device), plan.StepCount(), d)
  {
    hide ValidPlan, ValidDevice, RouteAt, Plan.StepCount, Prefix.IsCanonical;
    var n := plan.StepCount();
    forall d | d in base ensures d in t && t[d] == base[d] {
      assert !PlannedBelow(plan, Some(device), n, d);
      assert At(t, d) == At(base, d);
    }
    forall d | d in t && d !in base ensures PlannedBelow(plan, Some(device), n, d) {
      assert At(t, d) != At(base, d);
    }
    forall d | d in t ensures d.IsCanonical() {
      if d !in base {
        var i :| 0 <= i < n && RouteAt(plan, Some(device), i).Some? && RouteAt(plan, Some(device), i).value.dest == d;
        PlannedRouteValid(plan, Some(device), i);
      }
    }
  }

  /** The planned destinations of a full tunnel. */
  lemma FullPlanned(plan: Plan, device: DeviceHandle, d: Prefix)
    requires plan.policy == FullIPv4
    ensures plan.StepCount() == 7
    ensures PlannedBelow(plan, Some(device), 7, d) <==>
      d in [plan.EndpointRoute().dest, V4_LOW_HALF, V4_HIGH_HALF, V6_LOW_HALF, V6_HIGH_HALF]
    ensures RouteAt(plan, Some(device), 0) == Some(plan.EndpointRoute())
    ensures RouteAt(plan, Some(device), 2) == Some(Route(V4_LOW_HALF, NoAddr, device.iface, false))
    ensures RouteAt(plan, Some(device), 3) == Some(Route(V4_HIGH_HALF, NoAddr, device.iface, false))
    ensures RouteAt(plan, Some(device), 4) == Some(Route(V6_LOW_HALF, NoAddr, "lo0", true))
    ensures RouteAt(plan, Some(device), 5) == Some(Route(V6_HIGH_HALF, NoAddr, "lo0", true))
  {
    var routes := plan.TunnelRoutes();
    forall i | 2 <= i < 6
      ensures RouteAt(plan, Some(device), i)
           == Some(if routes[i - 2].reject then routes[i - 2] else routes[i - 2].(iface := device.iface))
    {
    }
    assert RouteAt(plan, Some(device), 1).None? && RouteAt(plan, Some(device), 6).None?;
    assert routes[0].dest == V4_LOW_HALF && routes[1].dest == V4_HIGH_HALF;
    assert routes[2].dest == V6_LOW_HALF && routes[3].dest == V6_HIGH_HALF;
    var at0, at2, at3 := RouteAt(plan, Some(device), 0), RouteAt(plan, Some(device), 2), RouteAt(plan, Some(device), 3);
    var at4, at5 := RouteAt(plan, Some(device), 4), RouteAt(plan, Some(device), 5);
    hide RouteAt;
    if PlannedBelow(plan, Some(device), 7, d) {
      var i :| 0 <= i < 7 && RouteAt(plan, Some(device), i).Some? && RouteAt(plan, Some(device), i).value.dest == d;
      assert i == 0 || i == 2 || i == 3 || i == 4 || i == 5;
    }
  }

  /** A prefix of one bit is a half of its family. */
  lemma OneBit(d: Prefix, a: Addr)
    requires d.IsCanonical() && d.bits == 1 && d.Contains(a)
    ensures d in [V4_LOW_HALF, V4_HIGH_HALF, V6_LOW_HALF, V6_HIGH_HALF]
  {
    Halves(a);
    if V4_LOW_HALF.Contains(a) {
      SamePrefix(d, V4_LOW_HALF, a);
    } else if V4_HIGH_HALF.Contains(a) {
      SamePrefix(d, V4_HIGH_HALF, a);
    } else if V6_LOW_HALF.Contains(a) {
      SamePrefix(d, V6_LOW_HALF, a);
    } else {
      SamePrefix(d, V6_HIGH_HALF, a);
    }
  }

  /** The half of its family that holds the address. */
  function Half(a: Addr): Prefix {
    if a.V4? then (if V4_LOW_HALF.Contains(a) then V4_LOW_HALF else V4_HIGH_HALF)
    else if V6_LOW_HALF.Contains(a) then V6_LOW_HALF else V6_HIGH_HALF
  }

  /** The address has a route of its own that is longer than a default route. */
  ghost predicate Specific(t: Table, a: Addr) { exists d :: Covering(t, a, d) && d.bits > 0 }

  /** Full capture, without a loop: over any table that passed the conflict check, the endpoint goes to the
      physical gateway; every other address keeps its old route if it had one longer than a default, and
      otherwise goes to the device (IPv4) or is rejected (IPv6). */
  lemma FullCapture(base: Table, t: Table, plan: Plan, device: DeviceHandle, a: Addr)
    requires ValidPlan(plan) && plan.policy == FullIPv4 && ValidDevice(device) && a.IsValid()
    requires Canonical(base) && NoConflict(base, plan)
    requires Installed(base, t, plan, Some(device), plan.StepCount())
    ensures a == plan.endpoint.addr ==>
      Lookup(t, a) == Some(Route(Prefix(a, 32), plan.physicalGateway, plan.physicalInterface, false))
    ensures a != plan.endpoint.addr && Specific(base, a) ==> Lookup(t, a) == Lookup(base, a)
    ensures a != plan.endpoint.addr && !Specific(base, a) && a.V4? ==>
      Lookup(t, a) == Some(Route(Half(a), NoAddr, device.iface, false))
    ensures a != plan.endpoint.addr && !Specific(base, a) && a.V6? ==>
      Lookup(t, a) == Some(Route(Half(a), NoAddr, "lo0", true))
  {
    InstalledTable(base, t, plan, device);
    var pin := plan.EndpointRoute();
    HostPrefix(pin.dest, a);
    FullPlanned(plan, device, pin.dest);
    if a == plan.endpoint.addr {
      hide ValidPlan, ValidDevice, Canonical;
      assert At(t, pin.dest) == Some(pin);
      PinWins(t, plan);
      LookupIs(t, a, pin.dest);
    } else {
      assert !pin.dest.Contains(a);
      hide ValidPlan, ValidDevice;
      HalfInstalled(base, t, plan, device, a);
      if Specific(base, a) {
        SpecificWins(base, t, plan, device, a);
      } else {
        HalfWins(base, t, plan, device, a);
        LookupIs(t, a, Half(a));
      }
    }
  }

  /** Nothing is longer than a host route. */
  lemma PinWins(t: Table, plan: Plan)
    requires plan.EndpointRoute().dest in t && plan.endpoint.addr.V4?
    ensures Best(t, plan.endpoint.addr, plan.EndpointRoute().dest)
  {
    HostPrefix(plan.EndpointRoute().dest, plan.endpoint.addr);
    forall e | Covering(t, plan.endpoint.addr, e) ensures e.bits <= 32 {
      assert e.addr.BitLen() == 32;
    }
  }

  lemma HalfInstalled(base: Table, t: Table, plan: Plan, device: DeviceHandle, a: Addr)
    requires plan.policy == FullIPv4 && a.IsValid() && Installed(base, t, plan, Some(device), plan.StepCount())
    ensures Half(a).Contains(a) && Half(a).bits == 1 && Half(a) !in base
    ensures At(t, Half(a)) ==
      Some(if a.V4? then Route(Half(a), NoAddr, device.iface, false) else Route(Half(a), NoAddr, "lo0", true))
  {
    Halves(a);
    FullPlanned(plan, device, V4_LOW_HALF);
    hide RouteAt, Prefix.Contains, PlannedBelow;
    assert RouteAt(plan, Some(device), 2).Some? && RouteAt(plan, Some(device), 3).Some?;
    assert RouteAt(plan, Some(device), 4).Some? && RouteAt(plan, Some(device), 5).Some?;
  }

  /** Among the new routes only the half covers an address other than the endpoint. */
  lemma NewCover(base: Table, t: Table, plan: Plan, device: DeviceHandle, a: Addr, f: Prefix)
    requires plan.policy == FullIPv4 && a.IsValid() && Covering(t, a, f) && f !in base
    requires !plan.EndpointRoute().dest.Contains(a)
    requires forall d :: d in t && d !in base ==> PlannedBelow(plan, Some(device), plan.StepCount(), d)
    ensures f == Half(a)
  {
    Halves(a);
    FullPlanned(plan, device, f);
    hide RouteAt, PlannedBelow;
    assert f in [V4_LOW_HALF, V4_HIGH_HALF, V6_LOW_HALF, V6_HIGH_HALF];
  }

  lemma HalfWins(base: Table, t: Table, plan: Plan, device: DeviceHandle, a: Addr)
    requires plan.policy == FullIPv4 && a.IsValid() && !Specific(base, a)
    requires Half(a).Contains(a) && Half(a).bits == 1 && Half(a) in t
    requires !plan.EndpointRoute().dest.Contains(a)
    requires forall d :: d in t && d !in base ==> PlannedBelow(plan, Some(device), plan.StepCount(), d)
    ensures Best(t, a, Half(a))
  {
    hide Half, PlannedBelow, Prefix.Contains;
    forall f | Covering(t, a, f) ensures f.bits <= 1 {
      if f in base {
        assert Covering(base, a, f);
      } else {
        NewCover(base, t, plan, device, a, f);
      }
    }
  }

  lemma SpecificWins(base: Table, t: Table, plan: Plan, device: DeviceHandle, a: Addr)
    requires plan.policy == FullIPv4 && a.IsValid() && Specific(base, a) && NoConflict(base, plan)
    requires Canonical(base) && Canonical(t) && Half(a).bits == 1
    requires !plan.EndpointRoute().dest.Contains(a)
    requires forall d :: d in base ==> d in t && t[d] == base[d]
    requires forall d :: d in t && d !in base ==> PlannedBelow(plan, Some(device), plan.StepCount(), d)
    ensures Lookup(t, a) == Lookup(base, a)
  {
    hide Half, PlannedBelow, Prefix.Contains;
    var d :| Covering(base, a, d) && d.bits > 0;
    if d.bits == 1 {
      OneBit(d, a);
      assert false;
    }
    assert Covering(t, a, d);
    var e := BestExists(t, a, d);
    if e !in base {
      NewCover(base, t, plan, device, a, e);
      assert false;
    }
    StillBest(base, t, a, e);
  }

  // ---------- no loop at any step ----------

  /** At every step that keeps the pin guard, packets to the endpoint do not leave through the tunnel device. */
  lemma NoLoop(base: HostState, eg: Egress, plan: Plan, w: World, d: Prefix)
    requires Recoverable(base, eg, plan, w) && PinGuard(base.routes, plan, w) && w.device.Some?
    requires NoConflict(base.routes, plan) && Wired(eg, plan.EndpointRoute())
    requires Best(w.host.routes, plan.endpoint.addr, d)
    ensures w.host.routes[d].iface != w.device.value.iface
  {
    var t, j, pin := w.host.routes, w.disk.value, plan.EndpointRoute();
    PlanOfValid(j);
    hide ValidJournal;
    assert plan.endpoint.addr.V4?;
    hide ValidPlan;
    if pin.dest in t {
      PinWins(t, plan);
      assert d.bits == 32;
      WholeAddress(d, plan.endpoint.addr);
      assert d == pin.dest;
    }
    assert SettledAt(base.routes, t, plan, d) || OursAt(base.routes, t, eg, j, d);
    if d !in base.routes {
      assert d == pin.dest;
      var i: nat :| Ours(base.routes, t, eg, j, i, d);
      PinEntry(j, i);
      assert t[d] == pin;
    }
  }

  /** The same for every world of a guarded run: while connecting, and while rolling back without a failed tunnel
      route. */
  lemma NoLoopInRun(base: HostState, eg: Egress, plan: Plan, ws: seq<World>, k: nat, d: Prefix)
    requires Run(base, eg, plan, ws) && Guarded(base.routes, plan, ws) && k < |ws|
    requires NoConflict(base.routes, plan) && Wired(eg, plan.EndpointRoute())
    requires Best(ws[k].host.routes, plan.endpoint.addr, d)
    ensures ws[k].device.Some? ==> ws[k].host.routes[d].iface != ws[k].device.value.iface
  {
    hide Recoverable, Linked, Run, NoConflict, Wired, Best;
    RunAt(base, eg, plan, ws, k);
    if ws[k].device.Some? {
      NoLoop(base, eg, plan, ws[k], d);
    }
  }

  /** The one prefix of full length that holds an address is the address itself. */
  lemma WholeAddress(d: Prefix, a: Addr)
    requires d.Contains(a) && d.bits == a.BitLen()
    ensures d.addr == a
  {
    assert d.Block() == 1;
  }

  lemma PinEntry(j: Journal, i: nat)
    requires ValidJournal(j) && LiveAt(j, i, j.plan.EndpointRoute().dest)
    ensures j.entries[i].route == Some(j.plan.EndpointRoute())
  {
    hide ValidStatuses;
    assert j.entries[i].route == RouteAt(j.plan, j.device, i);
    HeaderFacts(j);
    if i != 0 {
      PlannedDistinct(j.plan, j.device, 0, i);
    }
  }

  // ---------- scoped plans ----------

  predicate InScope(plan: Plan, a: Addr) {
    exists i :: 0 <= i < |plan.scopedRoutes| && plan.scopedRoutes[i].Contains(a)
  }

  /** Whether an IPv4 address is private is settled by its first sixteen bits (section 3 of RFC 1918). */
  lemma PrivateByLeading16(x: U32, y: U32)
    requires x / 0x1_0000 == y / 0x1_0000
    ensures V4(x).IsPrivate() <==> V4(y).IsPrivate()
  {
  }

  /** Everything a scoped plan captures is private, and neither the endpoint nor the gateway is captured. */
  lemma ScopedContained(plan: Plan, a: Addr)
    requires ValidPlan(plan) && plan.policy == ScopedIPv4 && InScope(plan, a)
    ensures a.V4? && a.IsPrivate() && a != plan.endpoint.addr && a != plan.physicalGateway
  {
    var i :| 0 <= i < |plan.scopedRoutes| && plan.scopedRoutes[i].Contains(a);
    var p := plan.scopedRoutes[i];
    assert ValidScope(plan, p);
    SameLeading16(p, a);
    PrivateByLeading16(a.n, p.addr.n);
  }

  lemma ScopedPlanned(plan: Plan, device: DeviceHandle)
    requires plan.policy == ScopedIPv4
    ensures plan.StepCount() == 2 + |plan.scopedRoutes|
    ensures RouteAt(plan, Some(device), 0) == Some(plan.EndpointRoute())
    ensures forall i :: 0 <= i < |plan.scopedRoutes| ==>
      RouteAt(plan, Some(device), 2 + i) == Some(Route(plan.scopedRoutes[i], NoAddr, device.iface, false))
    ensures forall d :: PlannedBelow(plan, Some(device), plan.StepCount(), d) ==>
      d == plan.EndpointRoute().dest || d in plan.scopedRoutes
  {
    forall d | PlannedBelow(plan, Some(device), plan.StepCount(), d)
      ensures d == plan.EndpointRoute().dest || d in plan.scopedRoutes
    {
      var i :|
        && 0 <= i < plan.StepCount() && RouteAt(plan, Some(device), i).Some?
        && RouteAt(plan, Some(device), i).value.dest == d;
      if i != 0 {
        assert RouteAt(plan, Some(device), 2 + (i - 2)).value.dest == plan.scopedRoutes[i - 2];
      }
    }
  }

  /** Some scoped prefix is longer than every old route for the address. */
  ghost predicate ScopeWins(base: Table, plan: Plan, a: Addr) {
    exists i :: 0 <= i < |plan.scopedRoutes| && plan.scopedRoutes[i].Contains(a)
      && forall f :: Covering(base, a, f) ==> f.bits < plan.scopedRoutes[i].bits
  }

  /** A scoped tunnel over any table: the endpoint goes to the physical gateway, an address goes through the
      device exactly if a scoped prefix beats every route it had, and every other address keeps its route. */
  lemma ScopedRouting(base: Table, t: Table, plan: Plan, device: DeviceHandle, a: Addr)
    requires ValidPlan(plan) && plan.policy == ScopedIPv4 && ValidDevice(device) && a.IsValid()
    requires Canonical(base) && Unused(base, device.iface)
    requires Installed(base, t, plan, Some(device), plan.StepCount())
    ensures a == plan.endpoint.addr ==>
      Lookup(t, a) == Some(Route(Prefix(a, 32), plan.physicalGateway, plan.physicalInterface, false))
    ensures a != plan.endpoint.addr ==>
      (ScopeWins(base, plan, a) <==> Lookup(t, a).Some? && Lookup(t, a).value.iface == device.iface)
    ensures a != plan.endpoint.addr && !ScopeWins(base, plan, a) ==> Lookup(t, a) == Lookup(base, a)
    ensures a != plan.endpoint.addr && !InScope(plan, a) ==> Lookup(t, a) == Lookup(base, a)
  {
    InstalledTable(base, t, plan, device);
    ScopedPlanned(plan, device);
    var pin := plan.EndpointRoute();
    HostPrefix(pin.dest, a);
    if a == plan.endpoint.addr {
      hide ValidPlan, ValidDevice, Canonical;
      assert At(t, pin.dest) == Some(pin);
      PinWins(t, plan);
      LookupIs(t, a, pin.dest);
    } else if ScopeWins(base, plan, a) {
      ScopeTakes(base, t, plan, device, a);
    } else {
      ScopeLoses(base, t, plan, device, a);
    }
  }

  lemma ScopeTakes(base: Table, t: Table, plan: Plan, device: DeviceHandle, a: Addr)
    requires Canonical(base) && Canonical(t) && a.IsValid() && ScopeWins(base, plan, a)
    requires plan.policy == ScopedIPv4 && Installed(base, t, plan, Some(device), plan.StepCount())
    requires !plan.EndpointRoute().dest.Contains(a)
    ensures Lookup(t, a).Some? && Lookup(t, a).value.iface == device.iface
  {
    ScopedPlanned(plan, device);
    hide RouteAt, Prefix.Contains, Plan.StepCount;
    var i :| 0 <= i < |plan.scopedRoutes| && plan.scopedRoutes[i].Contains(a)
      && forall f :: Covering(base, a, f) ==> f.bits < plan.scopedRoutes[i].bits;
    assert RouteAt(plan, Some(device), 2 + i).Some?;
    assert At(t, plan.scopedRoutes[i]) == Some(Route(plan.scopedRoutes[i], NoAddr, device.iface, false));
    assert Covering(t, a, plan.scopedRoutes[i]);
    var e := BestExists(t, a, plan.scopedRoutes[i]);
    assert e in base ==> Covering(base, a, e);
    NewIsScoped(base, t, plan, device, a, e);
    LookupIs(t, a, e);
  }

  /** A new route for an address other than the endpoint is a scoped one, through the device. */
  lemma NewIsScoped(base: Table, t: Table, plan: Plan, device: DeviceHandle, a: Addr, e: Prefix)
    requires plan.policy == ScopedIPv4 && Installed(base, t, plan, Some(device), plan.StepCount())
    requires Covering(t, a, e) && e !in base && !plan.EndpointRoute().dest.Contains(a)
    ensures e in plan.scopedRoutes && t[e].iface == device.iface
  {
    ScopedPlanned(plan, device);
    hide RouteAt, Prefix.Contains, Plan.StepCount;
    assert PlannedBelow(plan, Some(device), plan.StepCount(), e) by {
      assert At(t, e) != At(base, e);
    }
    var k :| 0 <= k < |plan.scopedRoutes| && plan.scopedRoutes[k] == e;
    assert RouteAt(plan, Some(device), 2 + k).Some?;
  }

  lemma ScopeLoses(base: Table, t: Table, plan: Plan, device: DeviceHandle, a: Addr)
    requires Canonical(base) && Canonical(t) && a.IsValid() && !ScopeWins(base, plan, a) && Unused(base, device.iface)
    requires plan.policy == ScopedIPv4 && Installed(base, t, plan, Some(device), plan.StepCount())
    requires !plan.EndpointRoute().dest.Contains(a)
    requires forall d :: d in base ==> d in t && t[d] == base[d]
    ensures Lookup(t, a) == Lookup(base, a) && (Lookup(t, a).Some? ==> Lookup(t, a).value.iface != device.iface)
  {
    hide Prefix.Contains, Plan.StepCount, Installed, ScopeWins;
    assert forall d :: Covering(base, a, d) ==> Covering(t, a, d);
    if d :| Covering(t, a, d) {
      var e := BestExists(t, a, d);
      if e !in base {
        NewWins(base, t, plan, device, a, e);
        assert false;
      }
      StillBest(base, t, a, e);
    }
  }

  /** A new route wins only where a scoped prefix beats every old one. */
  lemma NewWins(base: Table, t: Table, plan: Plan, device: DeviceHandle, a: Addr, e: Prefix)
    requires Canonical(base) && Canonical(t) && Best(t, a, e) && e !in base
    requires plan.policy == ScopedIPv4 && Installed(base, t, plan, Some(device), plan.StepCount())
    requires !plan.EndpointRoute().dest.Contains(a)
    requires forall d :: d in base ==> d in t && t[d] == base[d]
    ensures ScopeWins(base, plan, a)
  {
    NewIsScoped(base, t, plan, device, a, e);
    hide Prefix.Contains, Plan.StepCount, Installed;
    var k :| 0 <= k < |plan.scopedRoutes| && plan.scopedRoutes[k] == e;
    forall f | Covering(base, a, f) ensures f.bits < plan.scopedRoutes[k].bits {
      assert Covering(t, a, f);
      if f.bits == e.bits {
        SamePrefix(e, f, a);
      }
    }
  }
}
