/** Plans, routes and journals of the tunnel transaction (internal/tunnel/model.go).

    Each `Validate` is stated twice: as a predicate that says what a valid value is, and as a method that
    loops as the source does; the method is proved to decide the predicate. Times are integers, zero being
    the zero time. Strings are sequences of single-byte characters. */
module TunnelModel {
  import opened Net

  const JOURNAL_SCHEMA_VERSION := 3

  // ---------- names ----------

  predicate IsAlpha(c: char) { 'a' <= c <= 'z' || 'A' <= c <= 'Z' }
  predicate IsDigit(c: char) { '0' <= c <= '9' }
  predicate IsHex(c: char) { 'a' <= c <= 'f' || IsDigit(c) }

  predicate AllHex(s: string) { forall i :: 0 <= i < |s| ==> IsHex(s[i]) }

  predicate ValidSessionID(s: string) { |s| == 32 && AllHex(s) }
  predicate ValidFingerprint(s: string) { |s| == 64 && AllHex(s) }

  predicate ValidInterface(s: string) {
    1 <= |s| <= 16 && IsAlpha(s[0]) && forall i :: 1 <= i < |s| ==> IsAlpha(s[i]) || IsDigit(s[i])
  }

  predicate HasControl(s: string) { exists i :: 0 <= i < |s| && (s[i] < ' ' || s[i] == 0x7f as char) }

  predicate ValidServiceID(s: string) { 1 <= |s| <= 256 && !HasControl(s) }

  predicate Distinct<T(==)>(s: seq<T>) { forall i, j :: 0 <= i < j < |s| ==> s[i] != s[j] }

  // ---------- routes ----------

  /** An absent gateway is `NoAddr`, an absent interface the empty string. */
  datatype Route = Route(dest: Prefix, gateway: Addr, iface: string, reject: bool)

  predicate ValidRoute(r: Route) {
    && r.dest.IsCanonical()
    && (r.gateway.IsValid() ==> r.gateway.BitLen() == r.dest.addr.BitLen() && !r.gateway.IsUnspecified())
    && (r.iface != "" ==> ValidInterface(r.iface))
    && (r.reject ==> r.dest.addr.V6? && !r.gateway.IsValid() && r.iface == "lo0")
  }

  // ---------- DNS ----------

  datatype ServiceDNS = ServiceDNS(serviceId: string, servers: seq<Addr>, searchDomains: seq<string>)
  datatype DNSSnapshot = DNSSnapshot(revision: string, services: seq<ServiceDNS>)

  /** `searchDomains` is `None` where the source has a nil slice: the component is then left alone. */
  datatype DNSConfig = DNSConfig(serviceId: string, servers: seq<Addr>, searchDomains: Option<seq<string>>)

  /** Stands for the SHA-256 digest of a service's settings, of which only its form is ever looked at. */
  function Revision(s: ServiceDNS): (r: string)
    ensures |r| == 64 && AllHex(r) && !HasControl(r)
  {
    seq(64, i => 'a')
  }

  predicate UsableServer(a: Addr) { a.IsValid() && !a.IsUnspecified() && !a.IsMulticast() }

  predicate HasBlank(s: string) { exists i :: 0 <= i < |s| && (s[i] == ' ' || s[i] == '\t') }

  predicate ValidDNSConfig(c: DNSConfig) {
    && ValidServiceID(c.serviceId)
    && 1 <= |c.servers| <= 8
    && (forall i :: 0 <= i < |c.servers| ==> UsableServer(c.servers[i]))
    && Distinct(c.servers)
    && (c.searchDomains.Some? ==>
          && |c.searchDomains.value| <= 32
          && forall i :: 0 <= i < |c.searchDomains.value| ==>
               var d := c.searchDomains.value[i]; 1 <= |d| <= 253 && !HasControl(d) && !HasBlank(d))
  }

  // ---------- plans ----------

  datatype RoutePolicy = ScopedIPv4 | FullIPv4 | OtherPolicy
  datatype AddrPort = AddrPort(addr: Addr, port: nat)

  datatype Plan = Plan(
    sessionId: string, ownerUid: int, endpoint: AddrPort, physicalGateway: Addr, physicalInterface: string,
    tunnelAddress: Prefix, tunnelMtu: int, tunnelDns: seq<Addr>, dnsService: string,
    policy: RoutePolicy, scopedRoutes: seq<Prefix>, peerFingerprint: string)
  {
    function EndpointRoute(): Route {
      Route(Prefix(endpoint.addr, 32), physicalGateway, physicalInterface, false)
    }

    /** The planned tunnel routes, before the device gives the direct ones their interface. */
    function TunnelRoutes(): seq<Route> {
      if policy == ScopedIPv4 then
        seq(|scopedRoutes|, i requires 0 <= i < |scopedRoutes| => Route(scopedRoutes[i], NoAddr, "", false))
      else
        [Route(V4_LOW_HALF, NoAddr, "", false), Route(V4_HIGH_HALF, NoAddr, "", false),
         Route(V6_LOW_HALF, NoAddr, "lo0", true), Route(V6_HIGH_HALF, NoAddr, "lo0", true)]
    }

    predicate UsesDNS() { policy == FullIPv4 }

    function Config(): DNSConfig { DNSConfig(dnsService, tunnelDns, None) }

    /** Entries of a complete journal: the pin, the device, the tunnel routes and, if managed, DNS. */
    function StepCount(): nat { 2 + |TunnelRoutes()| + if UsesDNS() then 1 else 0 }
  }

  predicate ValidScope(plan: Plan, p: Prefix) {
    && p.IsCanonical() && p.addr.V4? && p.addr.IsPrivate() && 16 <= p.bits <= 32
    && !p.Contains(plan.endpoint.addr) && !p.Contains(plan.physicalGateway)
  }

  predicate ValidPolicy(plan: Plan) {
    match plan.policy
    case FullIPv4 => plan.scopedRoutes == [] && 1 <= |plan.tunnelDns| <= 4 && ValidServiceID(plan.dnsService)
    case ScopedIPv4 =>
      && plan.tunnelDns == [] && plan.dnsService == ""
      && 1 <= |plan.scopedRoutes| <= 4
      && (forall i :: 0 <= i < |plan.scopedRoutes| ==> ValidScope(plan, plan.scopedRoutes[i]))
      && Distinct(plan.scopedRoutes)
    case OtherPolicy => false
  }

  predicate ValidPlan(plan: Plan) {
    && ValidSessionID(plan.sessionId) && plan.ownerUid >= 0
    && plan.endpoint.addr.IsGlobalUnicast4() && plan.endpoint.port != 0
    && plan.physicalGateway.V4? && !plan.physicalGateway.IsUnspecified()
    && ValidInterface(plan.physicalInterface)
    && plan.tunnelAddress.IsCanonical() && plan.tunnelAddress.addr.V4? && plan.tunnelAddress.bits == 32
    && 1280 <= plan.tunnelMtu <= 9000
    && ValidPolicy(plan)
    && (forall i :: 0 <= i < |plan.tunnelDns| ==> plan.tunnelDns[i].V4? && UsableServer(plan.tunnelDns[i]))
    && Distinct(plan.tunnelDns)
    && ValidFingerprint(plan.peerFingerprint)
  }

  // ---------- journals ----------

  datatype Phase = Disconnected | Connecting | Connected | Degraded | Disconnecting | RollbackRequired
                 | ForeignConflict | OtherPhase
  datatype StepKind = Device | EndpointRoute | TunnelRoute | DNS | OtherKind
  datatype StepStatus = Planned | Applied | RolledBack | OtherStatus

  datatype DeviceHandle = DeviceHandle(iface: string, ownerPid: int)
  datatype Entry = Entry(kind: StepKind, status: StepStatus, route: Option<Route>)

  datatype Journal = Journal(
    schemaVersion: int, sessionId: string, ownerUid: int, phase: Phase, plan: Plan, routeBefore: Route,
    dnsBefore: DNSSnapshot, device: Option<DeviceHandle>, entries: seq<Entry>, createdAt: int, updatedAt: int)

  predicate ValidDevice(d: DeviceHandle) { ValidInterface(d.iface) && d.ownerPid > 0 }

  predicate ValidServiceImage(s: ServiceDNS) {
    && |s.servers| <= 8 && |s.searchDomains| <= 32
    && (forall i :: 0 <= i < |s.servers| ==> UsableServer(s.servers[i]))
    && (forall i :: 0 <= i < |s.searchDomains| ==> 1 <= |s.searchDomains[i]| <= 253 && !HasControl(s.searchDomains[i]))
  }

  predicate ValidPreimages(j: Journal) {
    && ValidRoute(j.routeBefore) && j.routeBefore.dest == V4_DEFAULT
    && j.routeBefore.gateway == j.plan.physicalGateway && j.routeBefore.iface == j.plan.physicalInterface
    && (if !j.plan.UsesDNS() then j.dnsBefore == DNSSnapshot("", []) else
          && 1 <= |j.dnsBefore.revision| <= 128 && !HasControl(j.dnsBefore.revision)
          && |j.dnsBefore.services| == 1 && j.dnsBefore.services[0].serviceId == j.plan.dnsService
          && ValidServiceID(j.plan.dnsService) && ValidServiceImage(j.dnsBefore.services[0]))
  }

  /** The kind of the `i`-th step of a plan's transaction. */
  function KindAt(plan: Plan, i: nat): StepKind {
    if i == 0 then EndpointRoute
    else if i == 1 then Device
    else if i < 2 + |plan.TunnelRoutes()| then TunnelRoute
    else DNS
  }

  /** The route the `i`-th step installs, once the device name is known. */
  function RouteAt(plan: Plan, device: Option<DeviceHandle>, i: nat): Option<Route> {
    if i == 0 then Some(plan.EndpointRoute())
    else if 2 <= i < 2 + |plan.TunnelRoutes()| then
      var r := plan.TunnelRoutes()[i - 2];
      Some(if r.reject || device.None? then r else r.(iface := device.value.iface))
    else None
  }

  predicate Live(e: Entry) { e.status != RolledBack }

  /** Everything but the entries. */
  predicate ValidHeader(j: Journal) {
    && j.schemaVersion == JOURNAL_SCHEMA_VERSION && ValidPlan(j.plan)
    && j.sessionId == j.plan.sessionId && j.ownerUid == j.plan.ownerUid
    && j.phase != OtherPhase
    && j.createdAt != 0 && j.createdAt <= j.updatedAt
    && ValidPreimages(j)
    && (j.device.Some? ==> ValidDevice(j.device.value))
  }

  /** The entries are a prefix of the plan's transaction. */
  predicate ValidSteps(j: Journal) {
    && |j.entries| <= j.plan.StepCount()
    && (j.device.Some? ==> |j.entries| >= 2)
    && (|j.entries| > 2 ==> j.device.Some?)
    && (|j.entries| > 1 && j.entries[1].status == Applied ==> j.device.Some?)
    && forall i :: 0 <= i < |j.entries| ==>
         && j.entries[i].status != OtherStatus
         && j.entries[i].kind == KindAt(j.plan, i)
         && j.entries[i].route == RouteAt(j.plan, j.device, i)
  }

  /** The statuses are ones the phase allows. */
  predicate ValidStatuses(j: Journal) {
    && (j.phase == Connecting ==> forall i :: 0 <= i < |j.entries| ==> Live(j.entries[i]))
    && (j.phase == Connected || j.phase == Degraded ==>
          && |j.entries| == j.plan.StepCount() && j.device.Some?
          && forall i :: 0 <= i < |j.entries| ==> j.entries[i].status == Applied)
    && (j.phase == Disconnected ==> forall i :: 0 <= i < |j.entries| ==> !Live(j.entries[i]))
  }

  /** What a valid journal is. */
  predicate ValidJournal(j: Journal) { ValidHeader(j) && ValidSteps(j) && ValidStatuses(j) }

  // ---------- facts about valid plans ----------

  /** Every route a valid plan can ask for is a valid route with a named interface. */
  lemma PlannedRouteValid(plan: Plan, device: Option<DeviceHandle>, i: nat)
    requires ValidPlan(plan) && RouteAt(plan, device, i).Some?
    requires device.Some? ==> ValidDevice(device.value)
    ensures ValidRoute(RouteAt(plan, device, i).value)
    ensures i == 0 || device.Some? ==> RouteAt(plan, device, i).value.iface != ""
  {
    hide HasControl, Prefix.Block, Pow2;
    if i == 0 {
      HostPrefix(Prefix(plan.endpoint.addr, 32), NoAddr);
    } else {
      Halves(NoAddr);
    }
  }

  /** A valid plan never names one destination twice. */
  lemma PlannedDistinct(plan: Plan, device: Option<DeviceHandle>, i: nat, k: nat)
    requires ValidPlan(plan) && RouteAt(plan, device, i).Some? && RouteAt(plan, device, k).Some? && i != k
    ensures RouteAt(plan, device, i).value.dest != RouteAt(plan, device, k).value.dest
  {
    var pin := Prefix(plan.endpoint.addr, 32);
    HostPrefix(pin, plan.endpoint.addr);
    var n := if i == 0 then k else i;
    if i == 0 || k == 0 {
      assert plan.policy == ScopedIPv4 ==> !plan.scopedRoutes[n - 2].Contains(plan.endpoint.addr);
    }
  }

  // ---------- the looping validators ----------

  method ValidateScopes(plan: Plan) returns (ok: bool)
    ensures ok <==> (forall i :: 0 <= i < |plan.scopedRoutes| ==> ValidScope(plan, plan.scopedRoutes[i]))
                    && Distinct(plan.scopedRoutes)
  {
    var seen: set<Prefix> := {};
    for i := 0 to |plan.scopedRoutes|
      invariant seen == set k | 0 <= k < i :: plan.scopedRoutes[k]
      invariant forall k :: 0 <= k < i ==> ValidScope(plan, plan.scopedRoutes[k])
      invariant Distinct(plan.scopedRoutes[..i])
    {
      var prefix := plan.scopedRoutes[i];
      if !prefix.IsCanonical() || !prefix.addr.V4? || !prefix.addr.IsPrivate() || prefix.bits < 16 || prefix.bits > 32 {
        return false;
      }
      if prefix.Contains(plan.endpoint.addr) || prefix.Contains(plan.physicalGateway) {
        return false;
      }
      if prefix in seen {
        return false;
      }
      seen := seen + {prefix};
      assert plan.scopedRoutes[..i + 1] == plan.scopedRoutes[..i] + [prefix];
    }
    assert plan.scopedRoutes[..|plan.scopedRoutes|] == plan.scopedRoutes;
    return true;
  }

  method ValidatePolicy(plan: Plan) returns (ok: bool)
    ensures ok <==> ValidPolicy(plan)
  {
    match plan.policy {
      case FullIPv4 =>
        ok := |plan.scopedRoutes| == 0 && 0 < |plan.tunnelDns| <= 4;
        ok := ok && 0 < |plan.dnsService| <= 256 && !HasControl(plan.dnsService);
      case ScopedIPv4 =>
        if |plan.tunnelDns| != 0 || plan.dnsService != "" || |plan.scopedRoutes| == 0 || |plan.scopedRoutes| > 4 {
          return false;
        }
        ok := ValidateScopes(plan);
      case OtherPolicy =>
        ok := false;
    }
  }

  method ValidatePlan(plan: Plan) returns (ok: bool)
    ensures ok <==> ValidPlan(plan)
  {
    if || !ValidSessionID(plan.sessionId) || plan.ownerUid < 0
       || !plan.endpoint.addr.IsGlobalUnicast4() || plan.endpoint.port == 0
    {
      return false;
    }
    if !plan.physicalGateway.V4? || plan.physicalGateway.IsUnspecified() || !ValidInterface(plan.physicalInterface) {
      return false;
    }
    if !plan.tunnelAddress.IsCanonical() || !plan.tunnelAddress.addr.V4? || plan.tunnelAddress.bits != 32 {
      return false;
    }
    if plan.tunnelMtu < 1280 || plan.tunnelMtu > 9000 {
      return false;
    }
    var policyOk := ValidatePolicy(plan);
    if !policyOk {
      return false;
    }
    var seen: set<Addr> := {};
    for i := 0 to |plan.tunnelDns|
      invariant seen == set k | 0 <= k < i :: plan.tunnelDns[k]
      invariant forall k :: 0 <= k < i ==> plan.tunnelDns[k].V4? && UsableServer(plan.tunnelDns[k])
      invariant Distinct(plan.tunnelDns[..i])
    {
      var server := plan.tunnelDns[i];
      if !server.V4? || server.IsUnspecified() || server.IsMulticast() || server in seen {
        return false;
      }
      seen := seen + {server};
      assert plan.tunnelDns[..i + 1] == plan.tunnelDns[..i] + [server];
    }
    assert plan.tunnelDns[..|plan.tunnelDns|] == plan.tunnelDns;
    ok := ValidFingerprint(plan.peerFingerprint);
  }

  method BuildTunnelRoutes(plan: Plan) returns (routes: seq<Route>)
    ensures routes == plan.TunnelRoutes()
  {
    if plan.policy == ScopedIPv4 {
      routes := [];
      for i := 0 to |plan.scopedRoutes|
        invariant routes == plan.TunnelRoutes()[..i]
      {
        routes := routes + [Route(plan.scopedRoutes[i], NoAddr, "", false)];
      }
    } else {
      routes := [Route(V4_LOW_HALF, NoAddr, "", false), Route(V4_HIGH_HALF, NoAddr, "", false),
                 Route(V6_LOW_HALF, NoAddr, "lo0", true), Route(V6_HIGH_HALF, NoAddr, "lo0", true)];
    }
  }

  method ExpectedKinds(plan: Plan) returns (kinds: seq<StepKind>)
    ensures |kinds| == plan.StepCount()
    ensures forall i :: 0 <= i < |kinds| ==> kinds[i] == KindAt(plan, i)
  {
    kinds := [EndpointRoute, Device];
    for k := 0 to |plan.TunnelRoutes()|
      invariant |kinds| == 2 + k
      invariant forall i :: 0 <= i < |kinds| ==> kinds[i] == KindAt(plan, i)
    {
      kinds := kinds + [TunnelRoute];
    }
    if plan.UsesDNS() {
      kinds := kinds + [DNS];
    }
  }

  method ValidatePreimages(j: Journal) returns (ok: bool)
    ensures ok <==> ValidPreimages(j)
  {
    if !ValidRoute(j.routeBefore) || j.routeBefore.dest != V4_DEFAULT
      || j.routeBefore.gateway != j.plan.physicalGateway || j.routeBefore.iface != j.plan.physicalInterface {
      return false;
    }
    if !j.plan.UsesDNS() {
      return j.dnsBefore.revision == "" && |j.dnsBefore.services| == 0;
    }
    if |j.dnsBefore.revision| == 0 || |j.dnsBefore.revision| > 128 || HasControl(j.dnsBefore.revision) {
      return false;
    }
    if |j.dnsBefore.services| != 1 || j.dnsBefore.services[0].serviceId != j.plan.dnsService {
      return false;
    }
    var service := j.dnsBefore.services[0];
    if |service.serviceId| == 0 || |service.serviceId| > 256 || HasControl(service.serviceId) {
      return false;
    }
    if |service.servers| > 8 || |service.searchDomains| > 32 {
      return false;
    }
    for i := 0 to |service.servers|
      invariant forall k :: 0 <= k < i ==> UsableServer(service.servers[k])
    {
      if !service.servers[i].IsValid() || service.servers[i].IsUnspecified() || service.servers[i].IsMulticast() {
        return false;
      }
    }
    for i := 0 to |service.searchDomains|
      invariant forall k :: 0 <= k < i ==>
        1 <= |service.searchDomains[k]| <= 253 && !HasControl(service.searchDomains[k])
    {
      var domain := service.searchDomains[i];
      if |domain| == 0 || |domain| > 253 || HasControl(domain) {
        return false;
      }
    }
    return true;
  }

  /** The first loop of the journal check: order, kinds and well-formed routes. */
  method ValidateEntries(j: Journal, kinds: seq<StepKind>) returns (ok: bool)
    requires |j.entries| <= |kinds|
    requires forall i :: 0 <= i < |kinds| ==> kinds[i] != OtherKind
    ensures ok <==> forall i :: 0 <= i < |j.entries| ==> WellOrdered(j, kinds, i)
  {
    for i := 0 to |j.entries|
      invariant forall k :: 0 <= k < i ==> WellOrdered(j, kinds, k)
    {
      var entry := j.entries[i];
      if entry.kind == OtherKind || entry.status == OtherStatus || entry.kind != kinds[i] {
        assert !WellOrdered(j, kinds, i);
        return false;
      }
      if entry.kind == EndpointRoute || entry.kind == TunnelRoute {
        if entry.route.None? || !ValidRoute(entry.route.value) {
          assert !WellOrdered(j, kinds, i);
          return false;
        }
      } else if entry.route.Some? {
        assert !WellOrdered(j, kinds, i);
        return false;
      }
      if j.phase == Connecting && entry.status == RolledBack {
        assert !WellOrdered(j, kinds, i);
        return false;
      }
    }
    return true;
  }

  /** The per-entry test of that loop. */
  predicate WellOrdered(j: Journal, kinds: seq<StepKind>, i: nat)
    requires i < |j.entries| <= |kinds|
  {
    var e := j.entries[i];
    && e.status != OtherStatus && e.kind == kinds[i]
    && (e.route.Some? <==> e.kind == EndpointRoute || e.kind == TunnelRoute)
    && (e.route.Some? ==> ValidRoute(e.route.value))
    && (j.phase == Connecting ==> e.status != RolledBack)
  }

  method ValidateHeader(j: Journal) returns (ok: bool)
    ensures ok <==> ValidHeader(j)
  {
    var planOk := ValidatePlan(j.plan);
    if j.schemaVersion != JOURNAL_SCHEMA_VERSION || !planOk || j.sessionId != j.plan.sessionId
      || j.ownerUid != j.plan.ownerUid || j.phase == OtherPhase || j.createdAt == 0 || j.updatedAt < j.createdAt {
      return false;
    }
    var imagesOk := ValidatePreimages(j);
    ok := imagesOk && (j.device.Some? ==> ValidDevice(j.device.value));
  }

  /** The journaled routes are the plan's. */
  method ValidateRoutes(j: Journal) returns (ok: bool)
    requires |j.entries| <= j.plan.StepCount()
    requires |j.entries| > 2 ==> j.device.Some?
    requires forall i :: 0 <= i < |j.entries| ==> (j.entries[i].route.Some? <==> RouteAt(j.plan, j.device, i).Some?)
    ensures ok <==> forall i :: 0 <= i < |j.entries| ==> j.entries[i].route == RouteAt(j.plan, j.device, i)
  {
    if |j.entries| > 0 && j.entries[0].route.value != j.plan.EndpointRoute() {
      return false;
    }
    if |j.entries| > 2 {
      var expected := BuildTunnelRoutes(j.plan);
      var stop := if |j.entries| < 2 + |expected| then |j.entries| else 2 + |expected|;
      for i := 2 to stop
        invariant forall k :: 0 <= k < i ==> j.entries[k].route == RouteAt(j.plan, j.device, k)
      {
        var route := expected[i - 2];
        if !route.reject {
          route := route.(iface := j.device.value.iface);
        }
        if j.entries[i].route.value != route {
          return false;
        }
      }
    }
    return true;
  }

  method ValidateStatuses(j: Journal) returns (ok: bool)
    requires j.phase == Connecting ==> forall i :: 0 <= i < |j.entries| ==> Live(j.entries[i])
    ensures ok <==> ValidStatuses(j)
  {
    if j.phase == Connected || j.phase == Degraded {
      if |j.entries| != j.plan.StepCount() || j.device.None? {
        return false;
      }
      for i := 0 to |j.entries|
        invariant forall k :: 0 <= k < i ==> j.entries[k].status == Applied
      {
        if j.entries[i].status != Applied {
          return false;
        }
      }
    }
    if j.phase == Disconnected {
      for i := 0 to |j.entries|
        invariant forall k :: 0 <= k < i ==> !Live(j.entries[k])
      {
        if j.entries[i].status != RolledBack {
          return false;
        }
      }
    }
    return true;
  }

  method ValidateJournal(j: Journal) returns (ok: bool)
    ensures ok <==> ValidJournal(j)
  {
    var headerOk := ValidateHeader(j);
    if !headerOk {
      return false;
    }
    var kinds := ExpectedKinds(j.plan);
    if |j.entries| > |kinds| {
      return false;
    }
    var ordered := ValidateEntries(j, kinds);
    if !ordered {
      DisorderedEntries(j, kinds);
      return false;
    }
    OrderedEntries(j, kinds);
    if |j.entries| > 1 && j.entries[1].status == Applied && j.device.None? {
      return false;
    }
    if j.device.Some? && |j.entries| < 2 {
      return false;
    }
    if |j.entries| > 2 && j.device.None? {
      return false;
    }
    var routesOk := ValidateRoutes(j);
    if !routesOk {
      return false;
    }
    ok := ValidateStatuses(j);
  }

  /** Well-ordered entries carry a route exactly where their step installs one. */
  lemma OrderedEntries(j: Journal, kinds: seq<StepKind>)
    requires |j.entries| <= |kinds| == j.plan.StepCount()
    requires forall i :: 0 <= i < |kinds| ==> kinds[i] == KindAt(j.plan, i)
    requires forall i :: 0 <= i < |j.entries| ==> WellOrdered(j, kinds, i)
    ensures forall i :: 0 <= i < |j.entries| ==>
      && j.entries[i].status != OtherStatus && j.entries[i].kind == KindAt(j.plan, i)
      && (j.entries[i].route.Some? <==> RouteAt(j.plan, j.device, i).Some?)
    ensures j.phase == Connecting ==> forall i :: 0 <= i < |j.entries| ==> Live(j.entries[i])
  {
    forall i | 0 <= i < |j.entries|
      ensures j.entries[i].status != OtherStatus && j.entries[i].kind == KindAt(j.plan, i)
      ensures j.entries[i].route.Some? <==> RouteAt(j.plan, j.device, i).Some?
      ensures j.phase == Connecting ==> Live(j.entries[i])
    {
      assert WellOrdered(j, kinds, i);
    }
  }

  /** A journal whose entries fail the first loop is not valid: its routes would have been the plan's. */
  lemma DisorderedEntries(j: Journal, kinds: seq<StepKind>)
    requires |j.entries| <= |kinds| == j.plan.StepCount()
    requires forall i :: 0 <= i < |kinds| ==> kinds[i] == KindAt(j.plan, i)
    requires exists i :: 0 <= i < |j.entries| && !WellOrdered(j, kinds, i)
    ensures !ValidJournal(j)
  {
    if ValidJournal(j) {
      var i :| 0 <= i < |j.entries| && !WellOrdered(j, kinds, i);
      if RouteAt(j.plan, j.device, i).Some? {
        PlannedRouteValid(j.plan, j.device, i);
      }
      assert false;
    }
  }
}
