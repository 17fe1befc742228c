/** What the tunnel transaction keeps at every step: the vocabulary of internal/tunnel/controller.go.

    A `World` is everything that outlives one adapter call: the host, the live device and the journal on disk.
    `base` is the host before Connect, the pre-image to give back. */
module TunnelProtocol {
  import opened Net
  import opened TunnelModel
  import opened DarwinNet

  datatype HostState = HostState(routes: Table, dns: Services)
  datatype World = World(host: HostState, device: Option<DeviceHandle>, disk: Option<Journal>)

  type Egress = map<Addr, string>

  /** What a store answers when asked for a session's journal. */
  datatype Loading = LoadFailed | NotFound | Loaded(journal: Journal)

  predicate AllowedTransition(from: Phase, to: Phase) {
    match from
    case Connecting => to in [Connected, Disconnecting, RollbackRequired]
    case Connected => to in [Degraded, Disconnecting, RollbackRequired]
    case Degraded => to in [Disconnecting, RollbackRequired]
    case Disconnecting => to in [Disconnected, RollbackRequired]
    case RollbackRequired => to == Disconnecting
    case ForeignConflict => to == Disconnected
    case _ => false
  }

  // ---------- how the journal on disk may change ----------

  function Rank(s: StepStatus): nat {
    match s
    case Planned => 0
    case Applied => 1
    case RolledBack => 2
    case OtherStatus => 0
  }

  /** The same step, no less far along: planned, then applied, then rolled back. */
  predicate Advances(e: Entry, e': Entry) {
    e.kind == e'.kind && e.route == e'.route && Rank(e.status) <= Rank(e'.status)
  }

  /** One session's journal, earlier and later: same identity and pre-images, entries only added or advanced. */
  ghost predicate Behind(j: Journal, j': Journal) {
    && j' == j.(phase := j'.phase, device := j'.device, entries := j'.entries, updatedAt := j'.updatedAt)
    && (j.device.Some? ==> j'.device == j.device)
    && j.updatedAt <= j'.updatedAt
    && |j.entries| <= |j'.entries|
    && forall i :: 0 <= i < |j.entries| ==> Advances(j.entries[i], j'.entries[i])
  }

  /** Rollback writes its final phases without consulting the table; a journal in a foreign conflict, which no
      code here writes, is the one place where that leaves the table. */
  predicate PhaseStep(p: Phase, p': Phase) {
    p == p' || AllowedTransition(p, p') || (p == ForeignConflict && p' == RollbackRequired)
  }

  /** One replacement of the journal on disk. */
  ghost predicate JournalStep(j: Journal, j': Journal) {
    && Behind(j, j')
    && j.updatedAt < j'.updatedAt
    && PhaseStep(j.phase, j'.phase)
  }

  /** A journal appears empty, is replaced step by step, and goes away only when nothing in it is owned. */
  ghost predicate DiskStep(d: Option<Journal>, d': Option<Journal>) {
    || d == d'
    || (d.None? && d'.Some? && d'.value.phase == Connecting && d'.value.entries == [])
    || (d.Some? && d'.Some? && JournalStep(d.value, d'.value))
    || (d.Some? && d'.None? && d.value.phase == Disconnected && LiveCount(d.value.entries) == 0)
  }

  /** How many entries still stand for a resource. */
  function LiveCount(es: seq<Entry>): nat {
    if es == [] then 0 else LiveCount(es[..|es| - 1]) + if Live(es[|es| - 1]) then 1 else 0
  }

  lemma {:induction false} LiveCountZero(es: seq<Entry>)
    ensures LiveCount(es) == 0 <==> forall i :: 0 <= i < |es| ==> !Live(es[i])
  {
    if es != [] {
      LiveCountZero(es[..|es| - 1]);
      if forall i :: 0 <= i < |es| ==> !Live(es[i]) {
        assert !Live(es[|es| - 1]);
      }
    }
  }

  /** While no entry is added, the number of live entries never grows; it falls if one is rolled back. */
  lemma {:induction false} LiveCountFalls(es: seq<Entry>, es': seq<Entry>)
    requires |es| == |es'| && forall i :: 0 <= i < |es| ==> Advances(es[i], es'[i])
    ensures LiveCount(es') <= LiveCount(es)
    ensures (exists i :: 0 <= i < |es| && Live(es[i]) && !Live(es'[i])) ==> LiveCount(es') < LiveCount(es)
  {
    if es != [] {
      var n := |es| - 1;
      assert Advances(es[n], es'[n]);
      LiveCountFalls(es[..n], es'[..n]);
      if i :| 0 <= i < |es| && Live(es[i]) && !Live(es'[i]) {
        assert i < n ==> Live(es[..n][i]) && !Live(es'[..n][i]);
      }
    }
  }

  // ---------- what the session owns ----------

  /** A foreign route that agrees with one the plan names without needing the device. `Remove` cannot tell
      the two apart. */
  predicate IsTwin(plan: Plan, d: Prefix, f: Route) {
    || (d == plan.EndpointRoute().dest && Matches(f, plan.EndpointRoute()))
    || (&& plan.policy != ScopedIPv4 && (d == V6_LOW_HALF || d == V6_HIGH_HALF)
        && Matches(f, Route(d, NoAddr, "lo0", true)))
  }

  /** The destination is as it was, or held a twin that a rollback took away. */
  predicate SettledAt(base: Table, t: Table, plan: Plan, d: Prefix) {
    At(t, d) == At(base, d) || (d !in t && d in base && IsTwin(plan, d, base[d]))
  }

  ghost predicate Settled(base: Table, t: Table, plan: Plan) {
    forall d :: SettledAt(base, t, plan, d)
  }

  predicate LiveAt(j: Journal, i: nat, d: Prefix) {
    i < |j.entries| && Live(j.entries[i]) && j.entries[i].route.Some? && j.entries[i].route.value.dest == d
  }

  ghost predicate NamesLive(j: Journal, d: Prefix) { exists i: nat :: LiveAt(j, i, d) }

  /** The route at `d` was installed for entry `i`. */
  predicate Ours(base: Table, t: Table, eg: Egress, j: Journal, i: nat, d: Prefix) {
    && LiveAt(j, i, d) && d !in base && d in t
    && Reachable(eg, j.entries[i].route.value) && t[d] == Realized(eg, j.entries[i].route.value)
  }

  ghost predicate OursAt(base: Table, t: Table, eg: Egress, j: Journal, d: Prefix) {
    exists i: nat :: Ours(base, t, eg, j, i, d)
  }

  /** Every destination is settled or owned by a live entry; what is rolled back is gone. */
  ghost predicate RoutesOk(base: Table, t: Table, eg: Egress, j: Journal) {
    && (forall d :: SettledAt(base, t, j.plan, d) || OursAt(base, t, eg, j, d))
    && (forall i :: 0 <= i < |j.entries| && !Live(j.entries[i]) && j.entries[i].route.Some? ==>
          j.entries[i].route.value.dest !in t)
  }

  predicate DnsLive(j: Journal) {
    j.plan.UsesDNS() && |j.entries| == j.plan.StepCount() && Live(j.entries[|j.entries| - 1])
  }

  function WithServers(d: Services, plan: Plan): Services
    requires plan.dnsService in d
  {
    d[plan.dnsService := d[plan.dnsService].(servers := plan.tunnelDns)]
  }

  ghost predicate DnsOk(base: Services, d: Services, j: Journal) {
    d == base || (DnsLive(j) && j.plan.dnsService in base && d == WithServers(base, j.plan))
  }

  /** No route of the table leaves through the interface. */
  predicate Unused(t: Table, iface: string) { forall d :: d in t ==> t[d].iface != iface }

  ghost predicate DeviceOk(base: Table, device: Option<DeviceHandle>, j: Journal) {
    && (j.device.Some? ==> Unused(base, j.device.value.iface))
    && (device.Some? ==>
          && |j.entries| > 1 && Live(j.entries[1]) && Unused(base, device.value.iface)
          && (j.device.Some? ==> j.device == device))
  }

  /** The journaled pre-image is the host's. */
  ghost predicate Preimage(base: HostState, j: Journal) {
    j.plan.UsesDNS() ==>
      && j.plan.dnsService in base.dns && Readable(base.dns[j.plan.dnsService])
      && |j.dnsBefore.services| == 1 && j.dnsBefore.services[0].serviceId == j.plan.dnsService
      && j.dnsBefore.services[0].servers == base.dns[j.plan.dnsService].servers
  }

  /** The journal accounts for every difference between the host and its pre-image. */
  ghost predicate Covers(base: HostState, eg: Egress, host: HostState, device: Option<DeviceHandle>, j: Journal) {
    && Preimage(base, j)
    && RoutesOk(base.routes, host.routes, eg, j)
    && DnsOk(base.dns, host.dns, j)
    && DeviceOk(base.routes, device, j)
  }

  /** The invariant of every world a run can crash in. */
  ghost predicate Recoverable(base: HostState, eg: Egress, plan: Plan, w: World) {
    match w.disk
    case None => w.device.None? && w.host.dns == base.dns && Settled(base.routes, w.host.routes, plan)
    case Some(j) => ValidJournal(j) && j.plan == plan && Covers(base, eg, w.host, w.device, j)
  }

  /** Write-ahead: a resource appears only if the journal already on disk names it. */
  ghost predicate WriteAhead(w: World, w': World) {
    && (forall d :: d !in w.host.routes && d in w'.host.routes ==> w.disk.Some? && NamesLive(w.disk.value, d))
    && (w'.host.dns != w.host.dns ==> w.disk.Some? && DnsLive(w.disk.value))
    && (w'.device.Some? && w'.device != w.device ==>
          w.disk.Some? && |w.disk.value.entries| > 1 && Live(w.disk.value.entries[1]))
  }

  ghost predicate Linked(w: World, w': World) { DiskStep(w.disk, w'.disk) && WriteAhead(w, w') }

  /** A tunnel route stands only while the endpoint pin does. */
  ghost predicate PinGuard(base: Table, plan: Plan, w: World) {
    (exists d :: d in w.host.routes && d !in base && d != plan.EndpointRoute().dest) ==>
      plan.EndpointRoute().dest in w.host.routes
  }

  ghost predicate Guarded(base: Table, plan: Plan, ws: seq<World>) {
    forall k :: 0 <= k < |ws| ==> PinGuard(base, plan, ws[k])
  }

  /** The worlds of a run, one after each step. */
  ghost predicate Run(base: HostState, eg: Egress, plan: Plan, ws: seq<World>)
    decreases |ws|
  {
    ws != [] ==>
      var n := |ws| - 1;
      Run(base, eg, plan, ws[..n]) && Recoverable(base, eg, plan, ws[n]) && (n > 0 ==> Linked(ws[n - 1], ws[n]))
  }

  lemma {:induction false} RunAt(base: HostState, eg: Egress, plan: Plan, ws: seq<World>, k: nat)
    requires Run(base, eg, plan, ws) && k < |ws|
    ensures Recoverable(base, eg, plan, ws[k])
    ensures k + 1 < |ws| ==> Linked(ws[k], ws[k + 1])
  {
    hide Recoverable, Linked;
    var n := |ws| - 1;
    if k < n {
      RunAt(base, eg, plan, ws[..n], k);
    }
  }

  lemma Alone(base: HostState, eg: Egress, plan: Plan, w: World)
    requires Recoverable(base, eg, plan, w)
    ensures Run(base, eg, plan, [w])
  {
    hide Recoverable;
    assert [w][..0] == [];
  }

  /** A process dies: its device goes, and with it any of the routes through the device. */
  ghost predicate Crashed(w: World, w': World) {
    && w'.disk == w.disk && w'.device.None? && w'.host.dns == w.host.dns
    && Purged(w.host.routes, w.device, w'.host.routes)
  }

  /** Some of the routes through a device that is going away are gone. */
  ghost predicate Purged(t: Table, device: Option<DeviceHandle>, t': Table) {
    forall d :: At(t', d) == At(t, d) || (d !in t' && d in t && device.Some? && t[d].iface == device.value.iface)
  }

  // ---------- what a crash of the machine may bring back ----------

  /** Until a write is durable an older journal may come back; the world can be recovered from each of them. */
  ghost predicate AllRecoverable(base: HostState, eg: Egress, plan: Plan, w: World, s: set<Option<Journal>>) {
    forall x :: x in s ==> Recoverable(base, eg, plan, w.(disk := x))
  }

  /** A write adds one possibility; a write that succeeds leaves no other. */
  ghost predicate SurfaceOutcome(s: set<Option<Journal>>, new_: Option<Journal>, s': set<Option<Journal>>, ok: bool) {
    (forall x :: x in s' ==> x in s || x == new_) && (ok ==> s' == {new_})
  }

  lemma SurfaceKept(base: HostState, eg: Egress, plan: Plan, w: World, s: set<Option<Journal>>, new_: Option<Journal>,
                    w': World, s': set<Option<Journal>>, ok: bool)
    requires AllRecoverable(base, eg, plan, w, s) && Recoverable(base, eg, plan, w.(disk := new_))
    requires w' == w.(disk := w'.disk) && SurfaceOutcome(s, new_, s', ok)
    ensures AllRecoverable(base, eg, plan, w', s')
  {
    hide Recoverable;
    assert forall x: Option<Journal> :: w'.(disk := x) == w.(disk := x);
  }

  lemma OnlySurface(base: HostState, eg: Egress, plan: Plan, w: World, s: set<Option<Journal>>)
    requires Recoverable(base, eg, plan, w) && s == {w.disk}
    ensures AllRecoverable(base, eg, plan, w, s)
  {
    hide Recoverable;
    assert w.(disk := w.disk) == w;
  }

  lemma CrashSurface(base: HostState, eg: Egress, plan: Plan, w: World, s: set<Option<Journal>>, w': World)
    requires AllRecoverable(base, eg, plan, w, s) && Crashed(w, w')
    ensures AllRecoverable(base, eg, plan, w', s)
  {
    hide Recoverable;
    forall x | x in s ensures Recoverable(base, eg, plan, w'.(disk := x)) {
      CrashKeeps(base, eg, plan, w.(disk := x), w'.(disk := x));
    }
  }

  // ---------- what follows from the invariant ----------

  /** Coverage: whatever stands that did not stand before is named by a live entry on disk. */
  lemma Coverage(base: HostState, eg: Egress, plan: Plan, w: World)
    requires Recoverable(base, eg, plan, w)
    ensures forall d :: d in w.host.routes && At(w.host.routes, d) != At(base.routes, d) ==>
              w.disk.Some? && NamesLive(w.disk.value, d)
    ensures w.host.dns != base.dns ==> w.disk.Some? && DnsLive(w.disk.value)
    ensures w.device.Some? ==> w.disk.Some? && |w.disk.value.entries| > 1 && Live(w.disk.value.entries[1])
  {
    if w.disk.None? {
      forall d | d in w.host.routes ensures At(w.host.routes, d) == At(base.routes, d) {
        assert SettledAt(base.routes, w.host.routes, plan, d);
      }
    } else {
      forall d | d in w.host.routes && At(w.host.routes, d) != At(base.routes, d)
        ensures NamesLive(w.disk.value, d)
      {
        assert !SettledAt(base.routes, w.host.routes, plan, d);
        var i: nat :| Ours(base.routes, w.host.routes, eg, w.disk.value, i, d);
        assert LiveAt(w.disk.value, i, d);
      }
    }
  }

  ghost predicate Twinless(base: Table, plan: Plan) { forall d :: d in base ==> !IsTwin(plan, d, base[d]) }

  /** Without twins, settled means untouched. */
  lemma SettledTwinless(base: Table, t: Table, plan: Plan)
    requires Settled(base, t, plan) && Twinless(base, plan)
    ensures t == base
  {
    forall d ensures (d in t <==> d in base) && (d in t ==> t[d] == base[d]) {
      assert SettledAt(base, t, plan, d);
    }
  }

  /** When every entry is rolled back, the host is settled. */
  lemma AllRolledBack(base: HostState, eg: Egress, host: HostState, device: Option<DeviceHandle>, j: Journal)
    requires Covers(base, eg, host, device, j)
    requires forall i :: 0 <= i < |j.entries| ==> !Live(j.entries[i])
    ensures device.None? && host.dns == base.dns && Settled(base.routes, host.routes, j.plan)
  {
    forall d ensures SettledAt(base.routes, host.routes, j.plan, d) {
      assert forall i: nat :: !Ours(base.routes, host.routes, eg, j, i, d);
      assert SettledAt(base.routes, host.routes, j.plan, d) || OursAt(base.routes, host.routes, eg, j, d);
    }
  }

  // ---------- each step keeps it ----------

  /** A device disappears. */
  lemma PurgeKeeps(base: HostState, eg: Egress, t: Table, dns: Services, device: Option<DeviceHandle>, t': Table,
                   j: Journal)
    requires Covers(base, eg, HostState(t, dns), device, j) && Purged(t, device, t')
    ensures Covers(base, eg, HostState(t', dns), None, j)
  {
    forall d ensures SettledAt(base.routes, t', j.plan, d) || OursAt(base.routes, t', eg, j, d) {
      assert SettledAt(base.routes, t, j.plan, d) || OursAt(base.routes, t, eg, j, d);
      assert At(t', d) == At(t, d) || d !in t';
      if At(t', d) == At(t, d) && OursAt(base.routes, t, eg, j, d) {
        var i: nat :| Ours(base.routes, t, eg, j, i, d);
        assert Ours(base.routes, t', eg, j, i, d);
      }
    }
    forall i | 0 <= i < |j.entries| && !Live(j.entries[i]) && j.entries[i].route.Some?
      ensures j.entries[i].route.value.dest !in t'
    {
      assert At(t', j.entries[i].route.value.dest) == At(t, j.entries[i].route.value.dest)
          || j.entries[i].route.value.dest !in t';
    }
  }

  /** A crash anywhere leaves a recoverable world. */
  lemma CrashKeeps(base: HostState, eg: Egress, plan: Plan, w: World, w': World)
    requires Recoverable(base, eg, plan, w) && Crashed(w, w')
    ensures Recoverable(base, eg, plan, w') && Linked(w, w')
  {
    forall d | d in w'.host.routes ensures d in w.host.routes {
      assert At(w'.host.routes, d) == At(w.host.routes, d) || d !in w'.host.routes;
    }
    match w.disk
    case None =>
      forall d ensures SettledAt(base.routes, w'.host.routes, plan, d) {
        assert SettledAt(base.routes, w.host.routes, plan, d);
        assert At(w'.host.routes, d) == At(w.host.routes, d);
      }
    case Some(j) =>
      PurgeKeeps(base, eg, w.host.routes, w.host.dns, w.device, w'.host.routes, j);
      assert HostState(w.host.routes, w.host.dns) == w.host;
      assert HostState(w'.host.routes, w.host.dns) == w'.host;
  }

  /** What `Remove` may take away for a planned route was ours or a twin. */
  lemma RemovableTwin(base: Table, plan: Plan, device: Option<DeviceHandle>, i: nat, f: Route)
    requires ValidPlan(plan) && RouteAt(plan, device, i).Some? && (i >= 2 ==> device.Some?)
    requires device.Some? ==> Unused(base, device.value.iface)
    requires var r := RouteAt(plan, device, i).value; r.dest in base && base[r.dest] == f && Matches(f, r)
    ensures IsTwin(plan, RouteAt(plan, device, i).value.dest, f)
  {
  }

  /** Removing a planned route keeps every journal of the session covering. */
  lemma RemoveKeeps(base: HostState, eg: Egress, host: HostState, device: Option<DeviceHandle>, j: Journal,
                    planned: Option<DeviceHandle>, i: nat, flaky: bool, t': Table, ok: bool)
    requires ValidPlan(j.plan) && Covers(base, eg, host, device, j)
    requires RouteAt(j.plan, planned, i).Some? && (i >= 2 ==> planned.Some?)
    requires planned.Some? ==> Unused(base.routes, planned.value.iface)
    requires RemoveOutcome(flaky, host.routes, RouteAt(j.plan, planned, i).value, t', ok)
    ensures Covers(base, eg, host.(routes := t'), device, j)
  {
    var r, t := RouteAt(j.plan, planned, i).value, host.routes;
    forall d ensures SettledAt(base.routes, t', j.plan, d) || OursAt(base.routes, t', eg, j, d) {
      assert SettledAt(base.routes, t, j.plan, d) || OursAt(base.routes, t, eg, j, d);
      if t' != t && d == r.dest {
        if d in base.routes {
          assert t[d] == base.routes[d];
          RemovableTwin(base.routes, j.plan, planned, i, base.routes[d]);
        }
      } else {
        assert At(t', d) == At(t, d);
        if OursAt(base.routes, t, eg, j, d) {
          var k: nat :| Ours(base.routes, t, eg, j, k, d);
          assert Ours(base.routes, t', eg, j, k, d);
        }
      }
    }
  }

  /** A restore leaves the settings alone or puts the pre-image back. */
  lemma RestoreKeeps(base: HostState, host: HostState, j: Journal, flaky: bool, d': Services, ok: bool)
    requires j.plan.UsesDNS() && ValidPlan(j.plan) && Preimage(base, j) && DnsOk(base.dns, host.dns, j)
    requires RestoreOutcome(flaky, host.dns, j.dnsBefore, j.plan.Config(), d', ok)
    ensures d' == host.dns || d' == base.dns
    ensures ok ==> d' == base.dns
    ensures !flaky ==> ok
  {
    var s := j.plan.dnsService;
    if d' != host.dns {
      assert d' == host.dns[s := d'[s]];
      assert d'[s] == host.dns[s] || d'[s] == base.dns[s];
      assert d' == host.dns || d' == base.dns;
    }
    if ok {
      assert Restored(j.dnsBefore.services[0], j.plan.Config(), host.dns[s]) == base.dns[s];
      assert host.dns[s := base.dns[s]] == base.dns;
    }
    assert ValidDNSConfig(j.plan.Config());
  }

  /** The journal with one entry marked. */
  function Marked(j: Journal, i: nat, s: StepStatus, at: int): Journal
    requires i < |j.entries|
  {
    j.(entries := j.entries[i := j.entries[i].(status := s)], updatedAt := at)
  }

  /** What entry `i` stood for is gone. */
  ghost predicate Gone(base: HostState, host: HostState, device: Option<DeviceHandle>, j: Journal, i: nat)
    requires i < |j.entries|
  {
    match j.entries[i].kind
    case DNS => host.dns == base.dns
    case Device => device.None?
    case _ => j.entries[i].route.Some? && j.entries[i].route.value.dest !in host.routes
  }

  /** The phases a rollback loop runs in. */
  predicate Undoing(p: Phase) { p == Disconnecting || p == ForeignConflict }

  lemma MarkValid(j: Journal, i: nat, at: int)
    requires ValidJournal(j) && Undoing(j.phase) && i < |j.entries| && j.updatedAt <= at
    ensures ValidJournal(Marked(j, i, RolledBack, at)) && Behind(j, Marked(j, i, RolledBack, at))
  {
  }

  /** An entry whose resource is gone may be recorded as rolled back. */
  lemma MarkKeeps(base: HostState, eg: Egress, host: HostState, device: Option<DeviceHandle>, j: Journal, i: nat,
                  at: int)
    requires ValidJournal(j) && Covers(base, eg, host, device, j)
    requires i < |j.entries| && Gone(base, host, device, j, i)
    ensures Covers(base, eg, host, device, Marked(j, i, RolledBack, at))
  {
    var k := Marked(j, i, RolledBack, at);
    assert j.entries[i].kind == KindAt(j.plan, i) && j.entries[i].route == RouteAt(j.plan, j.device, i);
    MarkRoutes(base.routes, eg, host.routes, j, i, at);
  }

  lemma MarkRoutes(base: Table, eg: Egress, t: Table, j: Journal, i: nat, at: int)
    requires RoutesOk(base, t, eg, j) && i < |j.entries|
    requires j.entries[i].route.Some? ==> j.entries[i].route.value.dest !in t
    ensures RoutesOk(base, t, eg, Marked(j, i, RolledBack, at))
  {
    var k := Marked(j, i, RolledBack, at);
    forall d ensures SettledAt(base, t, k.plan, d) || OursAt(base, t, eg, k, d) {
      assert SettledAt(base, t, j.plan, d) || OursAt(base, t, eg, j, d);
      if n: nat :| Ours(base, t, eg, j, n, d) {
        assert Ours(base, t, eg, k, n, d);
      }
    }
  }

  // ---------- what the store and the device manager may do ----------

  ghost predicate CreateOutcome(flaky: bool, d: Option<Journal>, j: Journal, d': Option<Journal>, ok: bool) {
    && (d' == d || (d.None? && ValidJournal(j) && d' == Some(j)))
    && (ok ==> d.None? && d' == Some(j))
    && (!flaky && d.None? && ValidJournal(j) ==> ok)
  }

  ghost predicate UpdateOutcome(flaky: bool, d: Option<Journal>, j: Journal, d': Option<Journal>, ok: bool) {
    && (d' == d || (d.Some? && ValidJournal(j) && d' == Some(j)))
    && (ok ==> d.Some? && d' == Some(j))
    && (!flaky && d.Some? && ValidJournal(j) ==> ok)
  }

  ghost predicate DeleteOutcome(flaky: bool, d: Option<Journal>, d': Option<Journal>, ok: bool) {
    && (d' == d || d'.None?)
    && (ok ==> d.Some? && d'.None?)
    && (!flaky && d.Some? ==> ok)
  }

  /** At most one device; a fresh interface carries no route yet. */
  ghost predicate OpenOutcome(flaky: bool, t: Table, next: DeviceHandle, device: Option<DeviceHandle>,
                              device': Option<DeviceHandle>, ok: bool)
  {
    && (device' == device || (device.None? && device' == Some(next) && Unused(t, next.iface)))
    && (ok ==> device.None? && device' == Some(next))
    && (!flaky && device.None? && Unused(t, next.iface) && ValidDevice(next) ==> ok)
  }

  /** Without a handle whatever the session owns is closed; a handle that is not the device's closes nothing. */
  ghost predicate CloseOutcome(flaky: bool, t: Table, device: Option<DeviceHandle>, handle: Option<DeviceHandle>,
                               t': Table, device': Option<DeviceHandle>, ok: bool)
  {
    && ((device' == device && t' == t) || (device'.None? && Purged(t, device, t')))
    && (ok ==> device'.None?)
    && (device.Some? && handle.Some? && handle != device ==> device' == device && t' == t && !ok)
    && (!flaky && (device.Some? && handle.Some? ==> handle == device) ==> ok)
  }

  // ---------- the forward half ----------

  /** Exactly the first `n` steps of the plan are installed, where nothing stood before. */
  ghost predicate Installed(base: Table, t: Table, plan: Plan, device: Option<DeviceHandle>, n: nat) {
    && (forall i :: 0 <= i < n && RouteAt(plan, device, i).Some? ==>
          var r := RouteAt(plan, device, i).value; r.dest !in base && At(t, r.dest) == Some(r))
    && (forall d :: !PlannedBelow(plan, device, n, d) ==> At(t, d) == At(base, d))
  }

  predicate PlannedBelow(plan: Plan, device: Option<DeviceHandle>, n: nat, d: Prefix) {
    exists i :: 0 <= i < n && RouteAt(plan, device, i).Some? && RouteAt(plan, device, i).value.dest == d
  }

  /** What is installed step by step is covered by the journal that names it. */
  lemma InstalledCovered(base: Table, t: Table, eg: Egress, j: Journal, n: nat)
    requires ValidSteps(j) && n <= |j.entries| && Installed(base, t, j.plan, j.device, n)
    requires forall i :: 0 <= i < |j.entries| ==> Live(j.entries[i])
    requires forall i :: 0 <= i < n && j.entries[i].route.Some? ==> Wired(eg, j.entries[i].route.value)
    ensures RoutesOk(base, t, eg, j)
  {
    forall d ensures SettledAt(base, t, j.plan, d) || OursAt(base, t, eg, j, d) {
      if PlannedBelow(j.plan, j.device, n, d) {
        var i :| 0 <= i < n && RouteAt(j.plan, j.device, i).Some? && RouteAt(j.plan, j.device, i).value.dest == d;
        assert j.entries[i].route == RouteAt(j.plan, j.device, i);
        assert Ours(base, t, eg, j, i, d);
      }
    }
  }

  /** The journal's last entry is the intent to add a route, everything before it is installed. */
  ghost predicate Intends(base: Table, t: Table, eg: Egress, j: Journal) {
    && ValidJournal(j) && j.entries != [] && (forall i :: 0 <= i < |j.entries| ==> Live(j.entries[i]))
    && j.entries[|j.entries| - 1].route.Some?
    && Installed(base, t, j.plan, j.device, |j.entries| - 1)
    && forall i :: 0 <= i < |j.entries| - 1 && j.entries[i].route.Some? ==> Wired(eg, j.entries[i].route.value)
  }

  /** One `Add`: even one that fails after taking effect is covered. */
  lemma AddCovered(base: Table, t: Table, eg: Egress, j: Journal, flaky: bool, t': Table, ok: bool)
    requires Intends(base, t, eg, j) && AddOutcome(eg, flaky, t, j.entries[|j.entries| - 1].route.value, t', ok)
    ensures RoutesOk(base, t', eg, j)
  {
    var n := |j.entries| - 1;
    var r := j.entries[n].route.value;
    assert j.entries[n].route == RouteAt(j.plan, j.device, n);
    InstalledCovered(base, t, eg, j, n);
    NotYetPlanned(j.plan, j.device, n);
    assert At(t, r.dest) == At(base, r.dest);
    CoveredAfterAdd(base, t, eg, j, n, t');
  }

  lemma CoveredAfterAdd(base: Table, t: Table, eg: Egress, j: Journal, n: nat, t': Table)
    requires RoutesOk(base, t, eg, j) && n < |j.entries| && Live(j.entries[n]) && j.entries[n].route.Some?
    requires forall i :: 0 <= i < |j.entries| ==> Live(j.entries[i])
    requires var r := j.entries[n].route.value;
      t' == t || (r.dest !in t && r.dest !in base && Reachable(eg, r) && t' == t[r.dest := Realized(eg, r)])
    ensures RoutesOk(base, t', eg, j)
  {
    forall d ensures SettledAt(base, t', j.plan, d) || OursAt(base, t', eg, j, d) {
      assert SettledAt(base, t, j.plan, d) || OursAt(base, t, eg, j, d);
      if d == j.entries[n].route.value.dest {
        assert t' == t || Ours(base, t', eg, j, n, d);
      } else {
        assert At(t', d) == At(t, d);
        if k: nat :| Ours(base, t, eg, j, k, d) {
          assert Ours(base, t', eg, j, k, d);
        }
      }
    }
  }

  /** A success extends what is installed. */
  lemma AddInstalled(base: Table, t: Table, eg: Egress, j: Journal, flaky: bool, t': Table)
    requires Intends(base, t, eg, j) && AddOutcome(eg, flaky, t, j.entries[|j.entries| - 1].route.value, t', true)
    ensures Installed(base, t', j.plan, j.device, |j.entries|)
  {
    var n := |j.entries| - 1;
    assert j.entries[n].route == RouteAt(j.plan, j.device, n);
    InstalledNext(base, t, t', j.plan, j.device, n);
  }

  lemma NotYetPlanned(plan: Plan, device: Option<DeviceHandle>, n: nat)
    requires ValidPlan(plan) && RouteAt(plan, device, n).Some?
    ensures !PlannedBelow(plan, device, n, RouteAt(plan, device, n).value.dest)
  {
    forall i | 0 <= i < n && RouteAt(plan, device, i).Some?
      ensures RouteAt(plan, device, i).value.dest != RouteAt(plan, device, n).value.dest
    {
      PlannedDistinct(plan, device, i, n);
    }
  }

  lemma InstalledNext(base: Table, t: Table, t': Table, plan: Plan, device: Option<DeviceHandle>, n: nat)
    requires ValidPlan(plan) && Installed(base, t, plan, device, n) && RouteAt(plan, device, n).Some?
    requires var r := RouteAt(plan, device, n).value; r.dest !in t && t' == t[r.dest := r]
    ensures Installed(base, t', plan, device, n + 1)
  {
    var r := RouteAt(plan, device, n).value;
    NotYetPlanned(plan, device, n);
    forall i | 0 <= i < n + 1 && RouteAt(plan, device, i).Some?
      ensures var s := RouteAt(plan, device, i).value; s.dest !in base && At(t', s.dest) == Some(s)
    {
      if i < n {
        PlannedDistinct(plan, device, i, n);
      }
    }
    forall d | !PlannedBelow(plan, device, n + 1, d) ensures At(t', d) == At(base, d) {
      assert d != r.dest;
      assert !PlannedBelow(plan, device, n, d);
    }
  }

  // ---------- the undoing half ----------

  /** The live entries from `n` on, last first: what a rollback acts on, in its order. */
  function UndoOrder(es: seq<Entry>, n: nat): seq<nat>
    decreases |es| - n
  {
    if n >= |es| then [] else UndoOrder(es, n + 1) + if Live(es[n]) then [n] else []
  }

  /** A rollback acts on the live entries and no others, each once, later ones first. */
  lemma {:induction false} UndoOrderExact(es: seq<Entry>, n: nat)
    ensures forall k :: k in UndoOrder(es, n) <==> n <= k < |es| && Live(es[k])
    ensures forall a, b :: 0 <= a < b < |UndoOrder(es, n)| ==> UndoOrder(es, n)[a] > UndoOrder(es, n)[b]
    decreases |es| - n
  {
    if n < |es| {
      UndoOrderExact(es, n + 1);
      var rest := UndoOrder(es, n + 1);
      assert forall a :: 0 <= a < |rest| ==> rest[a] in rest;
    }
  }

  /** What undoing entry `i` of journal `j` may do to the world. */
  ghost predicate UndoOutcome(flaky: bool, w: World, j: Journal, i: nat, w': World, ok: bool)
    requires i < |j.entries|
  {
    && w'.disk == w.disk
    && match j.entries[i].kind
       case DNS =>
         && w'.host.routes == w.host.routes && w'.device == w.device
         && RestoreOutcome(flaky, w.host.dns, j.dnsBefore, j.plan.Config(), w'.host.dns, ok)
       case Device =>
         && w'.host.dns == w.host.dns
         && CloseOutcome(flaky, w.host.routes, w.device, j.device, w'.host.routes, w'.device, ok)
       case _ =>
         && w'.host.dns == w.host.dns && w'.device == w.device
         && (if j.entries[i].route.None? then w' == w && !ok
             else RemoveOutcome(flaky, w.host.routes, j.entries[i].route.value, w'.host.routes, ok))
  }

  /** No planned destination is held by a route that `Remove` would refuse. */
  ghost predicate Unblocked(base: Table, plan: Plan) {
    forall d, device, i: nat {:trigger d in base, RouteAt(plan, device, i)} ::
      d in base && RouteAt(plan, device, i).Some? && RouteAt(plan, device, i).value.dest == d ==>
        ValidRoute(base[d]) && IsTwin(plan, d, base[d])
  }

  /** Undoing an entry of the journal in memory keeps any journal `k` of the session covering. */
  lemma UndoCovers(base: HostState, eg: Egress, flaky: bool, w: World, j: Journal, i: nat, w': World, ok: bool,
                   k: Journal)
    requires ValidJournal(j) && Covers(base, eg, w.host, w.device, j) && i < |j.entries|
    requires k.plan == j.plan && Covers(base, eg, w.host, w.device, k)
    requires UndoOutcome(flaky, w, j, i, w', ok)
    ensures Covers(base, eg, w'.host, w'.device, k)
  {
    assert j.entries[i].kind == KindAt(j.plan, i) && j.entries[i].route == RouteAt(j.plan, j.device, i);
    if j.entries[i].kind == DNS {
      RestoreKeeps(base, w.host, j, flaky, w'.host.dns, ok);
    } else if j.entries[i].kind == Device {
      if w' != w {
        PurgeKeeps(base, eg, w.host.routes, w.host.dns, w.device, w'.host.routes, k);
        assert HostState(w.host.routes, w.host.dns) == w.host && HostState(w'.host.routes, w.host.dns) == w'.host;
      }
    } else {
      RemoveKeeps(base, eg, w.host, w.device, k, j.device, i, flaky, w'.host.routes, ok);
      assert w.host.(routes := w'.host.routes) == w'.host;
    }
  }

  /** It keeps the world recoverable from any journal that may come back, or from none. */
  lemma UndoSurface(base: HostState, eg: Egress, flaky: bool, w: World, j: Journal, i: nat, w': World, ok: bool,
                    s: set<Option<Journal>>)
    requires ValidJournal(j) && Covers(base, eg, w.host, w.device, j) && i < |j.entries|
    requires UndoOutcome(flaky, w, j, i, w', ok)
    requires AllRecoverable(base, eg, j.plan, w, s)
    ensures AllRecoverable(base, eg, j.plan, w', s)
  {
    hide ValidJournal, Covers, UndoOutcome, Settled;
    forall x | x in s ensures Recoverable(base, eg, j.plan, w'.(disk := x)) {
      assert Recoverable(base, eg, j.plan, w.(disk := x));
      if x.Some? {
        UndoCovers(base, eg, flaky, w, j, i, w', ok, x.value);
      } else {
        var none := j.(entries := [], device := None);
        NothingCovers(base, eg, w, j);
        UndoCovers(base, eg, flaky, w, j, i, w', ok, none);
        AllRolledBack(base, eg, w'.host, w'.device, none);
      }
    }
  }

  /** A host that needs no journal is covered by one without entries. */
  lemma NothingCovers(base: HostState, eg: Egress, w: World, j: Journal)
    requires Covers(base, eg, w.host, w.device, j) && Recoverable(base, eg, j.plan, w.(disk := None))
    ensures Covers(base, eg, w.host, w.device, j.(entries := [], device := None))
  {
    var none := j.(entries := [], device := None);
    forall d ensures SettledAt(base.routes, w.host.routes, none.plan, d) {
      assert SettledAt(base.routes, w.host.routes, j.plan, d);
    }
  }

  /** An undo that reports success undid its entry. */
  lemma UndoGone(base: HostState, eg: Egress, flaky: bool, w: World, j: Journal, i: nat, w': World)
    requires ValidJournal(j) && Covers(base, eg, w.host, w.device, j) && i < |j.entries|
    requires UndoOutcome(flaky, w, j, i, w', true)
    ensures Gone(base, w'.host, w'.device, j, i)
  {
    assert j.entries[i].kind == KindAt(j.plan, i) && j.entries[i].route == RouteAt(j.plan, j.device, i);
    if j.entries[i].kind == DNS {
      RestoreKeeps(base, w.host, j, flaky, w'.host.dns, true);
    }
  }

  /** Undoing adds nothing to the host; it changes DNS only where the disk owns it. */
  lemma UndoLinked(base: HostState, eg: Egress, flaky: bool, w: World, j: Journal, i: nat, w': World, ok: bool)
    requires ValidJournal(j) && Covers(base, eg, w.host, w.device, j) && i < |j.entries|
    requires w.disk.Some? && w.disk.value.plan == j.plan && Covers(base, eg, w.host, w.device, w.disk.value)
    requires UndoOutcome(flaky, w, j, i, w', ok)
    ensures Linked(w, w')
  {
    assert j.entries[i].kind == KindAt(j.plan, i) && j.entries[i].route == RouteAt(j.plan, j.device, i);
    if j.entries[i].kind == DNS {
      RestoreKeeps(base, w.host, j, flaky, w'.host.dns, ok);
    }
    UndoShrinks(flaky, w, j, i, w', ok);
  }

  lemma HeaderFacts(j: Journal)
    requires ValidHeader(j)
    ensures ValidPlan(j.plan) && (j.device.Some? ==> ValidDevice(j.device.value))
  {
  }

  lemma RouteRemovable(base: Table, eg: Egress, t: Table, j: Journal, i: nat)
    requires ValidJournal(j) && RoutesOk(base, t, eg, j) && i < |j.entries| && j.entries[i].route.Some?
    requires Unblocked(base, j.plan) && Wired(eg, j.plan.EndpointRoute())
    ensures Removable(t, j.entries[i].route.value)
  {
    hide ValidHeader, ValidStatuses, ValidRoute, IsTwin, KindAt, ValidPlan, ValidDevice;
    HeaderFacts(j);
    var r := j.entries[i].route.value;
    var d := r.dest;
    assert j.entries[i].kind == KindAt(j.plan, i) && j.entries[i].route == RouteAt(j.plan, j.device, i);
    PlannedRouteValid(j.plan, j.device, i);
    if d in t {
      assert SettledAt(base, t, j.plan, d) || OursAt(base, t, eg, j, d);
      if d in base {
        assert t[d] == base[d];
        assert RouteAt(j.plan, j.device, i).Some?;
        TwinMatches(j.plan, j.device, i, t[d]);
      } else {
        var n: nat :| Ours(base, t, eg, j, n, d);
        OwnEntry(j, i, n);
        assert Realized(eg, r) == r;
      }
    }
  }

  /** A twin agrees with the planned route of its destination. */
  lemma TwinMatches(plan: Plan, device: Option<DeviceHandle>, i: nat, f: Route)
    requires ValidPlan(plan) && RouteAt(plan, device, i).Some?
    requires IsTwin(plan, RouteAt(plan, device, i).value.dest, f)
    ensures Matches(f, RouteAt(plan, device, i).value)
  {
    if i != 0 {
      PlannedDistinct(plan, device, 0, i);
    }
  }

  /** A valid journal names each destination once. */
  lemma OwnEntry(j: Journal, i: nat, n: nat)
    requires ValidJournal(j) && i < |j.entries| && j.entries[i].route.Some?
    requires LiveAt(j, n, j.entries[i].route.value.dest)
    ensures n == i
  {
    assert j.entries[i].route == RouteAt(j.plan, j.device, i) && j.entries[n].route == RouteAt(j.plan, j.device, n);
    if n != i {
      PlannedDistinct(j.plan, j.device, i, n);
    }
  }

  /** Undoing only ever takes things away. */
  lemma UndoShrinks(flaky: bool, w: World, j: Journal, i: nat, w': World, ok: bool)
    requires i < |j.entries| && UndoOutcome(flaky, w, j, i, w', ok)
    ensures Shrunk(w, w')
  {
    forall d ensures At(w'.host.routes, d) == At(w.host.routes, d) || d !in w'.host.routes {
      if j.entries[i].kind == Device && w' != w {
        assert At(w'.host.routes, d) == At(w.host.routes, d) || d !in w'.host.routes;
      }
    }
  }

  /** Every route that stands stood before, and so did the device. */
  ghost predicate Shrunk(w: World, w': World) {
    && (forall d :: At(w'.host.routes, d) == At(w.host.routes, d) || d !in w'.host.routes)
    && (w'.device == w.device || w'.device.None?)
  }

  // ---------- changes of the journal in memory ----------

  lemma BehindTrans(a: Journal, b: Journal, c: Journal)
    requires Behind(a, b) && Behind(b, c)
    ensures Behind(a, c)
  {
    forall i | 0 <= i < |a.entries| ensures Advances(a.entries[i], c.entries[i]) {
      assert Advances(a.entries[i], b.entries[i]) && Advances(b.entries[i], c.entries[i]);
    }
  }

  lemma BehindSelf(a: Journal)
    ensures Behind(a, a)
  {
  }

  /** What was rolled back stays rolled back. */
  lemma KeptLonger(a: Journal, b: Journal)
    requires Behind(a, b)
    ensures |a.entries| <= |b.entries|
    ensures forall k :: 0 <= k < |a.entries| && !Live(a.entries[k]) ==> k < |b.entries| && !Live(b.entries[k])
  {
    forall k | 0 <= k < |a.entries| && !Live(a.entries[k]) ensures k < |b.entries| && !Live(b.entries[k]) {
      assert Advances(a.entries[k], b.entries[k]);
    }
  }

  /** Between two journals of the same length, live entries never multiply, and every undo counts. */
  lemma Converges(a: Journal, b: Journal, c: Journal)
    requires Behind(a, b) && Behind(b, c) && |c.entries| == |a.entries|
    ensures |b.entries| == |a.entries| && LiveCount(b.entries) <= LiveCount(a.entries)
    ensures forall k :: 0 <= k < |a.entries| && Live(a.entries[k]) && !Live(b.entries[k]) ==>
      LiveCount(b.entries) < LiveCount(a.entries)
  {
    LiveCountFalls(a.entries, b.entries);
  }

  lemma PhaseKnown(j: Journal)
    requires ValidJournal(j)
    ensures j.phase != OtherPhase
  {
  }

  function Phased(j: Journal, p: Phase, at: int): Journal { j.(phase := p, updatedAt := at) }

  /** The phase and the time of a journal say nothing about what it covers. */
  lemma PhasedCovers(base: HostState, eg: Egress, host: HostState, device: Option<DeviceHandle>, j: Journal, p: Phase,
                     at: int)
    requires Covers(base, eg, host, device, j)
    ensures Covers(base, eg, host, device, Phased(j, p, at))
  {
    var k, t := Phased(j, p, at), host.routes;
    forall d ensures SettledAt(base.routes, t, k.plan, d) || OursAt(base.routes, t, eg, k, d) {
      assert SettledAt(base.routes, t, j.plan, d) || OursAt(base.routes, t, eg, j, d);
      if n: nat :| Ours(base.routes, t, eg, j, n, d) {
        assert Ours(base.routes, t, eg, k, n, d);
      }
    }
  }

  lemma PhasedHeader(j: Journal, p: Phase, at: int)
    requires ValidHeader(j) && j.updatedAt <= at && p != OtherPhase
    ensures ValidHeader(Phased(j, p, at))
  {
  }

  /** A rollback's phases are always ones its journal may have. */
  lemma PhasedValid(j: Journal, p: Phase, at: int)
    requires ValidJournal(j) && j.updatedAt <= at
    requires || p == Disconnecting || p == RollbackRequired
             || (p == Disconnected && forall i :: 0 <= i < |j.entries| ==> !Live(j.entries[i]))
    ensures ValidJournal(Phased(j, p, at)) && Behind(j, Phased(j, p, at))
  {
  }

  /** From the phase on disk, a rollback of a journal in phase `mem` only takes steps the disk may take. */
  predicate Rollable(disk: Phase, mem: Phase) {
    && mem != Disconnected && mem != OtherPhase
    && PhaseStep(disk, RollbackRequired)
    && if mem == ForeignConflict then disk == ForeignConflict else PhaseStep(disk, Disconnecting)
  }

  lemma SamePinGuard(base: Table, plan: Plan, w: World, w': World)
    requires w'.host.routes == w.host.routes
    ensures PinGuard(base, plan, w) == PinGuard(base, plan, w')
  {
  }

  // ---------- connecting, step by step ----------

  /** Everything the journal says is applied stands exactly as planned, and nothing else has changed. */
  ghost predicate Forwarded(base: HostState, eg: Egress, w: World, j: Journal) {
    && ValidJournal(j) && j.phase == Connecting && Preimage(base, j)
    && (forall i :: 0 <= i < |j.entries| ==> j.entries[i].status == Applied)
    && Installed(base.routes, w.host.routes, j.plan, j.device, |j.entries|)
    && AllWired(eg, j.entries)
    && w.host.dns == (if DnsLive(j) then WithServers(base.dns, j.plan) else base.dns)
    && w.device == j.device && (j.device.Some? <==> |j.entries| >= 2)
    && (j.device.Some? ==> Unused(base.routes, j.device.value.iface))
  }

  predicate AllWired(eg: Egress, es: seq<Entry>) {
    forall i :: 0 <= i < |es| && es[i].route.Some? ==> Wired(eg, es[i].route.value)
  }

  function WithoutLast(j: Journal): Journal
    requires j.entries != []
  {
    j.(entries := j.entries[..|j.entries| - 1])
  }

  /** The last entry is an intent that has had no effect yet. */
  ghost predicate Pending(base: HostState, eg: Egress, w: World, j: Journal) {
    && ValidJournal(j) && j.entries != [] && j.entries[|j.entries| - 1].status == Planned
    && Forwarded(base, eg, w, WithoutLast(j))
  }

  lemma PendingIntends(base: HostState, eg: Egress, w: World, j: Journal)
    requires Pending(base, eg, w, j)
    ensures Preimage(base, j) && w.host.dns == base.dns && w.device == j.device
    ensures forall i :: 0 <= i < |j.entries| ==> Live(j.entries[i])
    ensures Installed(base.routes, w.host.routes, j.plan, j.device, |j.entries| - 1)
    ensures forall i :: 0 <= i < |j.entries| - 1 && j.entries[i].route.Some? ==> Wired(eg, j.entries[i].route.value)
    ensures j.entries[|j.entries| - 1].route.Some? ==> Intends(base.routes, w.host.routes, eg, j)
  {
    hide ValidHeader, ValidStatuses, Installed, Readable, KindAt, RouteAt;
    var j0 := WithoutLast(j);
    assert forall i :: 0 <= i < |j0.entries| ==> j0.entries[i] == j.entries[i];
  }

  lemma PendingCovers(base: HostState, eg: Egress, w: World, j: Journal)
    requires Pending(base, eg, w, j)
    ensures Covers(base, eg, w.host, w.device, j)
  {
    hide ValidHeader, ValidStatuses, Readable;
    PendingIntends(base, eg, w, j);
    InstalledCovered(base.routes, w.host.routes, eg, j, |j.entries| - 1);
  }

  lemma ForwardedCovers(base: HostState, eg: Egress, w: World, j: Journal)
    requires Forwarded(base, eg, w, j)
    ensures Covers(base, eg, w.host, w.device, j)
  {
    hide ValidHeader, ValidStatuses, Readable;
    InstalledCovered(base.routes, w.host.routes, eg, j, |j.entries|);
  }

  /** The header rules do not depend on what a step changes. */
  lemma HeaderKept(j: Journal, k: Journal)
    requires ValidHeader(j) && k == j.(device := k.device, entries := k.entries, updatedAt := k.updatedAt)
    requires j.updatedAt <= k.updatedAt && (k.device.Some? ==> ValidDevice(k.device.value))
    ensures ValidHeader(k)
  {
  }

  /** The next step of the plan may always be recorded. */
  lemma AppendValid(j: Journal, e: Entry, at: int)
    requires ValidJournal(j) && j.phase == Connecting && j.updatedAt < at
    requires |j.entries| < j.plan.StepCount() && (|j.entries| >= 2 ==> j.device.Some?)
    requires e == Entry(KindAt(j.plan, |j.entries|), Planned, RouteAt(j.plan, j.device, |j.entries|))
    ensures var k := j.(entries := j.entries + [e], updatedAt := at);
      ValidJournal(k) && JournalStep(j, k) && ValidJournal(WithoutLast(k))
  {
    hide ValidHeader, KindAt, RouteAt, Plan.StepCount, ValidPlan, ValidDevice;
    var k := j.(entries := j.entries + [e], updatedAt := at);
    assert k.entries[..|k.entries| - 1] == j.entries;
    HeaderFacts(j);
    HeaderKept(j, k);
    HeaderKept(j, WithoutLast(k));
    assert forall i :: 0 <= i < |j.entries| ==> k.entries[i] == j.entries[i];
    assert ValidSteps(k) && ValidStatuses(k) && ValidSteps(WithoutLast(k)) && ValidStatuses(WithoutLast(k));
  }

  /** The last step may be recorded as applied, with the device if that is what it made. */
  lemma AppliedValid(j: Journal, device: Option<DeviceHandle>, at: int)
    requires ValidJournal(j) && j.phase == Connecting && j.entries != []
    requires j.entries[|j.entries| - 1].status == Planned && j.updatedAt < at
    requires device == j.device || (|j.entries| == 2 && j.device.None? && device.Some? && ValidDevice(device.value))
    requires |j.entries| >= 2 ==> device.Some?
    ensures ValidJournal(AppliedLast(j, device, at)) && JournalStep(j, AppliedLast(j, device, at))
  {
    hide ValidHeader, ValidPlan, ValidDevice;
    var k := AppliedLast(j, device, at);
    HeaderFacts(j);
    HeaderKept(j, k);
    assert device != j.device ==> forall i :: 0 <= i < 2 ==> RouteAt(j.plan, j.device, i) == RouteAt(j.plan, device, i);
    hide KindAt, RouteAt, Plan.StepCount;
    forall i | 0 <= i < |k.entries|
      ensures k.entries[i].status != OtherStatus && k.entries[i].kind == KindAt(k.plan, i)
      ensures k.entries[i].route == RouteAt(k.plan, k.device, i) && Advances(j.entries[i], k.entries[i])
      ensures Live(k.entries[i])
    {
      assert j.entries[i].kind == KindAt(j.plan, i) && j.entries[i].route == RouteAt(j.plan, j.device, i);
      assert Live(j.entries[i]);
    }
  }

  /** Recording the next intent. */
  lemma IntentPending(base: HostState, eg: Egress, w: World, j: Journal, e: Entry, at: int)
    requires Forwarded(base, eg, w, j) && |j.entries| < j.plan.StepCount() && j.updatedAt < at
    requires e == Entry(KindAt(j.plan, |j.entries|), Planned, RouteAt(j.plan, j.device, |j.entries|))
    ensures var k := j.(entries := j.entries + [e], updatedAt := at);
      Pending(base, eg, w, k) && JournalStep(j, k)
  {
    var k := j.(entries := j.entries + [e], updatedAt := at);
    AppendValid(j, e, at);
    hide ValidJournal, Installed, Readable, JournalStep;
    assert WithoutLast(k).entries == j.entries;
  }

  /** Every route in the base still stands while connecting, so an unused interface was unused before. */
  lemma UnusedBefore(base: Table, t: Table, plan: Plan, device: Option<DeviceHandle>, n: nat, iface: string)
    requires Installed(base, t, plan, device, n) && Unused(t, iface)
    ensures Unused(base, iface)
  {
    forall d | d in base ensures base[d].iface != iface {
      assert At(t, d) == At(base, d) by {
        assert !PlannedBelow(plan, device, n, d);
      }
    }
  }

  /** Adding the intended route: covered whatever happens, applied if it reports success. */
  lemma RouteStep(base: HostState, eg: Egress, flaky: bool, w: World, j: Journal, w': World, ok: bool)
    requires Pending(base, eg, w, j) && j.entries[|j.entries| - 1].route.Some?
    requires w' == w.(host := w.host.(routes := w'.host.routes))
    requires AddOutcome(eg, flaky, w.host.routes, j.entries[|j.entries| - 1].route.value, w'.host.routes, ok)
    ensures Covers(base, eg, w'.host, w'.device, j)
  {
    hide ValidJournal, Readable, RoutesOk;
    PendingIntends(base, eg, w, j);
    PendingCovers(base, eg, w, j);
    AddCovered(base.routes, w.host.routes, eg, j, flaky, w'.host.routes, ok);
  }

  function AppliedLast(j: Journal, device: Option<DeviceHandle>, at: int): Journal
    requires j.entries != []
  {
    Marked(j, |j.entries| - 1, Applied, at).(device := device)
  }

  lemma WiredByAdd(eg: Egress, flaky: bool, t: Table, r: Route, t': Table)
    requires AddOutcome(eg, flaky, t, r, t', true)
    ensures Wired(eg, r)
  {
  }

  lemma RouteApplied(base: HostState, eg: Egress, flaky: bool, w: World, j: Journal, w': World, at: int)
    requires Pending(base, eg, w, j) && j.entries[|j.entries| - 1].route.Some? && j.updatedAt < at
    requires w' == w.(host := w.host.(routes := w'.host.routes))
    requires AddOutcome(eg, flaky, w.host.routes, j.entries[|j.entries| - 1].route.value, w'.host.routes, true)
    ensures Forwarded(base, eg, w', AppliedLast(j, j.device, at)) && JournalStep(j, AppliedLast(j, j.device, at))
  {
    hide ValidHeader, ValidStatuses, Readable, Installed, JournalStep, AddOutcome, Intends, AllWired, Wired, Unused;
    PendingIntends(base, eg, w, j);
    AddInstalled(base.routes, w.host.routes, eg, j, flaky, w'.host.routes);
    WiredByAdd(eg, flaky, w.host.routes, j.entries[|j.entries| - 1].route.value, w'.host.routes);
    WiredLast(eg, j, at);
    AppliedValid(j, j.device, at);
    assert j.entries[|j.entries| - 1].kind == KindAt(j.plan, |j.entries| - 1);
    assert j.entries[|j.entries| - 1].route == RouteAt(j.plan, j.device, |j.entries| - 1);
  }

  lemma WiredLast(eg: Egress, j: Journal, at: int)
    requires j.entries != [] && j.entries[|j.entries| - 1].route.Some?
    requires Wired(eg, j.entries[|j.entries| - 1].route.value)
    requires forall i :: 0 <= i < |j.entries| - 1 && j.entries[i].route.Some? ==> Wired(eg, j.entries[i].route.value)
    ensures AllWired(eg, AppliedLast(j, j.device, at).entries)
  {
    hide Wired;
  }

  /** Opening the device. */
  lemma DeviceStep(base: HostState, eg: Egress, flaky: bool, w: World, j: Journal, next: DeviceHandle, w': World,
                   ok: bool)
    requires Pending(base, eg, w, j) && |j.entries| == 2
    requires w' == w.(device := w'.device) && OpenOutcome(flaky, w.host.routes, next, w.device, w'.device, ok)
    ensures Covers(base, eg, w'.host, w'.device, j) && w.device.None?
  {
    hide ValidHeader, ValidStatuses, Readable, RoutesOk;
    PendingIntends(base, eg, w, j);
    PendingCovers(base, eg, w, j);
    if w' != w {
      UnusedBefore(base.routes, w.host.routes, j.plan, j.device, |j.entries| - 1, next.iface);
    }
  }

  lemma DeviceApplied(base: HostState, eg: Egress, flaky: bool, w: World, j: Journal, next: DeviceHandle, w': World,
                      at: int)
    requires Pending(base, eg, w, j) && |j.entries| == 2 && j.updatedAt < at && ValidDevice(next)
    requires w' == w.(device := w'.device) && OpenOutcome(flaky, w.host.routes, next, w.device, w'.device, true)
    ensures Forwarded(base, eg, w', AppliedLast(j, Some(next), at)) && JournalStep(j, AppliedLast(j, Some(next), at))
  {
    hide ValidHeader, ValidStatuses, Readable, ValidDevice, JournalStep;
    PendingIntends(base, eg, w, j);
    UnusedBefore(base.routes, w.host.routes, j.plan, j.device, 1, next.iface);
    AppliedValid(j, Some(next), at);
    assert j.entries[1].kind == KindAt(j.plan, 1) && j.entries[1].route == RouteAt(j.plan, j.device, 1);
    PinInstalled(base.routes, w.host.routes, j.plan, j.device, Some(next));
    hide Installed;
  }

  /** With only the pin in place, the device has no say in what is installed. */
  lemma PinInstalled(base: Table, t: Table, plan: Plan, device: Option<DeviceHandle>, device': Option<DeviceHandle>)
    requires Installed(base, t, plan, device, 1)
    ensures Installed(base, t, plan, device', 2)
  {
    assert RouteAt(plan, device, 0) == RouteAt(plan, device', 0);
    forall d | !PlannedBelow(plan, device', 2, d) ensures At(t, d) == At(base, d) {
      assert RouteAt(plan, device', 0).value.dest != d;
      assert !PlannedBelow(plan, device, 1, d);
    }
  }

  /** Applying DNS. */
  lemma DnsStep(base: HostState, eg: Egress, flaky: bool, w: World, j: Journal, w': World, ok: bool)
    requires Pending(base, eg, w, j) && j.entries[|j.entries| - 1].kind == DNS
    requires w' == w.(host := w.host.(dns := w'.host.dns))
    requires ApplyOutcome(flaky, w.host.dns, j.plan.Config(), w'.host.dns, ok)
    ensures Covers(base, eg, w'.host, w'.device, j) && DnsLive(j)
    ensures ok ==> w'.host.dns == WithServers(base.dns, j.plan)
  {
    hide ValidHeader, ValidStatuses, Readable, RoutesOk;
    PendingIntends(base, eg, w, j);
    PendingCovers(base, eg, w, j);
    assert j.entries[|j.entries| - 1].kind == KindAt(j.plan, |j.entries| - 1);
    if j.plan.dnsService in base.dns {
      ghost var setting := base.dns[j.plan.dnsService];
      assert Managed(j.plan.Config(), setting) == setting.(servers := j.plan.tunnelDns);
    }
  }

  lemma DnsApplied(base: HostState, eg: Egress, flaky: bool, w: World, j: Journal, w': World, at: int)
    requires Pending(base, eg, w, j) && j.entries[|j.entries| - 1].kind == DNS && j.updatedAt < at
    requires w' == w.(host := w.host.(dns := w'.host.dns))
    requires ApplyOutcome(flaky, w.host.dns, j.plan.Config(), w'.host.dns, true)
    ensures Forwarded(base, eg, w', AppliedLast(j, j.device, at)) && JournalStep(j, AppliedLast(j, j.device, at))
  {
    hide ValidHeader, ValidStatuses, Readable, JournalStep;
    PendingIntends(base, eg, w, j);
    DnsStep(base, eg, flaky, w, j, w', true);
    AppliedValid(j, j.device, at);
    var n := |j.entries| - 1;
    assert j.entries[n].kind == KindAt(j.plan, n) && j.entries[n].route == RouteAt(j.plan, j.device, n);
    assert RouteAt(j.plan, j.device, n).None?;
    assert Installed(base.routes, w.host.routes, j.plan, j.device, n + 1) by {
      forall d | !PlannedBelow(j.plan, j.device, n + 1, d) ensures At(w.host.routes, d) == At(base.routes, d) {
        assert !PlannedBelow(j.plan, j.device, n, d);
      }
    }
    hide Installed, ValidSteps;
  }

  /** Tunnel routes are added after the pin. */
  lemma AddPinGuard(base: HostState, eg: Egress, flaky: bool, w: World, j: Journal, w': World, ok: bool)
    requires Pending(base, eg, w, j) && j.entries[|j.entries| - 1].route.Some?
    requires AddOutcome(eg, flaky, w.host.routes, j.entries[|j.entries| - 1].route.value, w'.host.routes, ok)
    ensures PinGuard(base.routes, j.plan, w')
  {
    hide ValidHeader, ValidStatuses, Readable;
    PendingIntends(base, eg, w, j);
    var n, t, t' := |j.entries| - 1, w.host.routes, w'.host.routes;
    assert j.entries[n].route == RouteAt(j.plan, j.device, n);
    if n == 0 {
      forall d | d in t' && d != j.plan.EndpointRoute().dest ensures d in base.routes {
        assert !PlannedBelow(j.plan, j.device, 0, d);
        assert At(t, d) == At(base.routes, d);
      }
    } else {
      assert RouteAt(j.plan, j.device, 0) == Some(j.plan.EndpointRoute());
      assert At(t, j.plan.EndpointRoute().dest) == Some(j.plan.EndpointRoute());
    }
  }

  /** A journal with no entries over an untouched host. */
  lemma InitialForwarded(base: HostState, eg: Egress, w: World, j: Journal)
    requires ValidJournal(j) && j.phase == Connecting && j.entries == [] && j.device.None? && Preimage(base, j)
    requires w.host == base && w.device.None?
    ensures Forwarded(base, eg, w, j)
  {
  }

  /** Adding a route the journal on disk names is a step that was written ahead. */
  lemma AddLinked(eg: Egress, flaky: bool, w: World, j: Journal, w': World, ok: bool)
    requires w.disk == Some(j) && j.entries != [] && Live(j.entries[|j.entries| - 1])
    requires j.entries[|j.entries| - 1].route.Some?
    requires w' == w.(host := w.host.(routes := w'.host.routes))
    requires AddOutcome(eg, flaky, w.host.routes, j.entries[|j.entries| - 1].route.value, w'.host.routes, ok)
    ensures Linked(w, w')
  {
    var r := j.entries[|j.entries| - 1].route.value;
    assert LiveAt(j, |j.entries| - 1, r.dest);
  }

  /** The other forward steps leave the table alone. */
  lemma StepLinked(w: World, j: Journal, w': World)
    requires w.disk == Some(j) && w'.disk == w.disk && w'.host.routes == w.host.routes
    requires w'.host.dns != w.host.dns ==> DnsLive(j)
    requires w'.device != w.device ==> |j.entries| > 1 && Live(j.entries[1])
    ensures Linked(w, w')
  {
  }

  /** A completely applied journal may be declared connected. */
  lemma ConnectedValid(base: HostState, eg: Egress, w: World, j: Journal, at: int)
    requires Forwarded(base, eg, w, j) && |j.entries| == j.plan.StepCount() && j.updatedAt < at
    ensures var k := Phased(j, Connected, at); ValidJournal(k) && JournalStep(j, k)
  {
    hide Installed, Preimage, Readable, ValidHeader, KindAt, RouteAt, AllWired, Unused;
    PhasedHeader(j, Connected, at);
  }

  /** What Connect has checked before it changes anything. */
  ghost predicate Checked(base: HostState, plan: Plan) {
    && ValidPlan(plan) && HasDefault(base.routes) && NoConflict(base.routes, plan)
    && (plan.UsesDNS() ==> plan.dnsService in base.dns && Readable(base.dns[plan.dnsService]))
  }

  lemma CheckedFacts(base: HostState, plan: Plan)
    requires Checked(base, plan)
    ensures ValidPlan(plan) && NoConflict(base.routes, plan)
  {
  }

  /** A service's settings as the journal keeps them. */
  function Image(dns: Services, id: string): ServiceDNS
    requires id in dns
  {
    ServiceDNS(id, dns[id].servers, dns[id].domains)
  }

  /** Nothing keeps Connect from writing its first journal. */
  ghost predicate Startable(base: HostState, plan: Plan) {
    Checked(base, plan) && (plan.UsesDNS() ==> ValidServiceImage(Image(base.dns, plan.dnsService)))
  }

  /** The DNS pre-image is the service's setting, where DNS is managed. */
  ghost predicate DnsCaptured(dns: Services, plan: Plan, before: DNSSnapshot) {
    if plan.UsesDNS() then
      && plan.dnsService in dns && Readable(dns[plan.dnsService])
      && before == DNSSnapshot(Revision(Image(dns, plan.dnsService)), [Image(dns, plan.dnsService)])
    else before == DNSSnapshot("", [])
  }

  /** The journal a transaction starts from. */
  function InitialJournal(plan: Plan, before: Route, dnsBefore: DNSSnapshot, now: int): Journal {
    Journal(JOURNAL_SCHEMA_VERSION, plan.sessionId, plan.ownerUid, Connecting, plan, before, dnsBefore, None, [], now,
            now)
  }

  lemma InitialValid(base: HostState, plan: Plan, dnsBefore: DNSSnapshot, now: int)
    requires Startable(base, plan) && DnsCaptured(base.dns, plan, dnsBefore) && now != 0
    ensures ValidJournal(InitialJournal(plan, DefaultRoute(base.routes), dnsBefore, now))
  {
    hide UsableServer, HasControl, Prefix.IsCanonical, Pow2;
    var j := InitialJournal(plan, DefaultRoute(base.routes), dnsBefore, now);
    assert ValidServiceID(plan.dnsService) || !plan.UsesDNS();
    assert ValidPreimages(j);
    hide ValidPlan, ValidPreimages;
  }

  /** And on no other. */
  lemma InitialStartable(base: HostState, plan: Plan, before: Route, dnsBefore: DNSSnapshot, now: int)
    requires Checked(base, plan) && DnsCaptured(base.dns, plan, dnsBefore)
    requires ValidJournal(InitialJournal(plan, before, dnsBefore, now))
    ensures Startable(base, plan) && now != 0
  {
    hide ValidPlan, UsableServer, HasControl;
    assert ValidPreimages(InitialJournal(plan, before, dnsBefore, now));
  }

  lemma InitialPreimage(base: HostState, plan: Plan, before: Route, dnsBefore: DNSSnapshot, now: int)
    requires DnsCaptured(base.dns, plan, dnsBefore)
    ensures Preimage(base, InitialJournal(plan, before, dnsBefore, now))
  {
  }

  /** What a successful Connect leaves behind. */
  ghost predicate Established(base: HostState, w: World, plan: Plan) {
    && w.device.Some? && ValidDevice(w.device.value) && Unused(base.routes, w.device.value.iface)
    && Installed(base.routes, w.host.routes, plan, w.device, plan.StepCount())
    && (plan.UsesDNS() ==> plan.dnsService in base.dns)
    && w.host.dns == (if plan.UsesDNS() then WithServers(base.dns, plan) else base.dns)
  }

  /** The endpoint already has a host route that agrees with the pin. */
  predicate PinTwin(base: Table, plan: Plan) {
    plan.EndpointRoute().dest in base && Matches(base[plan.EndpointRoute().dest], plan.EndpointRoute())
  }

  /** After a clean rollback over a table that passed the conflict check, the host is untouched exactly if the
      pin had no twin: the one foreign route a failed Connect can take away. */
  lemma NoNetEffect(base: Table, t: Table, plan: Plan)
    requires ValidPlan(plan) && Settled(base, t, plan) && NoConflict(base, plan) && plan.EndpointRoute().dest !in t
    ensures t == base <==> !PinTwin(base, plan)
    ensures t == base - {plan.EndpointRoute().dest}
  {
    var pin := plan.EndpointRoute().dest;
    forall d ensures (d in t <==> d in base && d != pin) && (d in t ==> t[d] == base[d]) {
      assert SettledAt(base, t, plan, d);
    }
    assert SettledAt(base, t, plan, pin);
    assert pin !in t && (pin in base ==> PinTwin(base, plan));
    assert t.Keys == base.Keys - {pin};
  }

  /** The host and the plan are such that nothing stands in the way of a connection. */
  ghost predicate Favourable(base: HostState, eg: Egress, plan: Plan, next: DeviceHandle) {
    && Startable(base, plan) && PinReady(base.routes, eg, plan)
    && DeviceReady(base.routes, plan, next) && TunnelFree(base.routes, plan)
  }

  /** The endpoint has no host route yet, and the kernel places the pin where it is planned. */
  predicate PinReady(base: Table, eg: Egress, plan: Plan) {
    plan.EndpointRoute().dest !in base && Wired(eg, plan.EndpointRoute())
  }

  /** The interface is a valid one that nothing uses. */
  predicate DeviceReady(base: Table, plan: Plan, next: DeviceHandle) {
    ValidDevice(next) && Unused(base, next.iface) && next.iface != plan.physicalInterface
  }

  /** Nothing stands where the tunnel routes go. */
  predicate TunnelFree(base: Table, plan: Plan) {
    forall i :: 0 <= i < |plan.TunnelRoutes()| ==> plan.TunnelRoutes()[i].dest !in base
  }

  /** One of the entries is for a destination that was taken. */
  predicate Taken(base: Table, es: seq<Entry>) {
    exists k :: 0 <= k < |es| && es[k].route.Some? && es[k].route.value.dest in base
  }

  lemma ForwardedPhase(base: HostState, eg: Egress, w: World, j: Journal)
    requires Forwarded(base, eg, w, j)
    ensures ValidJournal(j) && j.phase == Connecting && (j.device.Some? <==> |j.entries| >= 2)
  {
  }

  /** What is on disk has no part in what stands. */
  lemma SamePending(base: HostState, eg: Egress, j: Journal, host: HostState, device: Option<DeviceHandle>,
                    d: Option<Journal>, d': Option<Journal>)
    requires Pending(base, eg, World(host, device, d), j)
    ensures Pending(base, eg, World(host, device, d'), j)
  {
  }

  lemma SameForwarded(base: HostState, eg: Egress, j: Journal, host: HostState, device: Option<DeviceHandle>,
                      d: Option<Journal>, d': Option<Journal>)
    requires Forwarded(base, eg, World(host, device, d), j)
    ensures Forwarded(base, eg, World(host, device, d'), j)
  {
  }

  /** Rolled-back routes do not stand. */
  lemma EntriesGone(base: HostState, eg: Egress, host: HostState, device: Option<DeviceHandle>, j: Journal)
    requires Covers(base, eg, host, device, j) && forall i :: 0 <= i < |j.entries| ==> !Live(j.entries[i])
    ensures forall k :: 0 <= k < |j.entries| && j.entries[k].route.Some? ==>
      j.entries[k].route.value.dest !in host.routes
  {
  }

  lemma PendingValid(base: HostState, eg: Egress, w: World, j: Journal)
    requires Pending(base, eg, w, j)
    ensures ValidJournal(j) && j.phase == Connecting && j.entries != [] && j.entries[|j.entries| - 1].status == Planned
  {
  }

  /** The routes of a valid journal's plan are valid, so the check before an intent never fails. */
  lemma RoutePlannable(j: Journal, n: nat, r: Route)
    requires ValidJournal(j) && RouteAt(j.plan, j.device, n) == Some(r) && (n >= 2 ==> j.device.Some?)
    ensures ValidRoute(r) && Expressible(r)
  {
    HeaderFacts(j);
    PlannedRouteValid(j.plan, j.device, n);
  }

  lemma ApplySucceeds(flaky: bool, d: Services, plan: Plan, d': Services, ok: bool)
    requires ApplyOutcome(flaky, d, plan.Config(), d', ok)
    ensures !flaky && ValidPlan(plan) && plan.UsesDNS() && plan.dnsService in d ==> ok
  {
  }

  lemma ForwardedEstablished(base: HostState, eg: Egress, w: World, j: Journal)
    requires Forwarded(base, eg, w, j) && |j.entries| == j.plan.StepCount()
    ensures Established(base, w, j.plan) && w.device == j.device
  {
  }

  /** A planned destination is free when its turn comes exactly if it was free before. */
  lemma NextFree(base: HostState, eg: Egress, w: World, j: Journal)
    requires Forwarded(base, eg, w, j) && RouteAt(j.plan, j.device, |j.entries|).Some?
    ensures var d := RouteAt(j.plan, j.device, |j.entries|).value.dest; d in w.host.routes <==> d in base.routes
    ensures |j.entries| >= 2 ==> Wired(eg, RouteAt(j.plan, j.device, |j.entries|).value)
  {
    hide ValidHeader, ValidSteps, ValidStatuses, Readable, ValidPlan;
    PlanOfValid(j);
    NotYetPlanned(j.plan, j.device, |j.entries|);
    assert At(w.host.routes, RouteAt(j.plan, j.device, |j.entries|).value.dest)
        == At(base.routes, RouteAt(j.plan, j.device, |j.entries|).value.dest);
  }

  /** What has been applied was free. */
  lemma FreeEntries(base: HostState, eg: Egress, w: World, j: Journal)
    requires Forwarded(base, eg, w, j)
    ensures !Taken(base.routes, j.entries)
  {
    hide ValidHeader, ValidStatuses, Readable;
    forall k | 0 <= k < |j.entries| && j.entries[k].route.Some? ensures j.entries[k].route.value.dest !in base.routes {
      assert j.entries[k].route == RouteAt(j.plan, j.device, k);
    }
  }

  /** The steps of a plan, spelled out. */
  lemma StepsOfPlan(plan: Plan, next: DeviceHandle)
    ensures forall device: Option<DeviceHandle> :: RouteAt(plan, device, 0) == Some(plan.EndpointRoute())
    ensures KindAt(plan, 0) == EndpointRoute
    ensures plan.StepCount() == 2 + |plan.TunnelRoutes()| + if plan.UsesDNS() then 1 else 0
    ensures forall n: nat :: 2 <= n < 2 + |plan.TunnelRoutes()| ==> KindAt(plan, n) == TunnelRoute
    ensures forall n: nat :: 2 <= n < 2 + |plan.TunnelRoutes()| ==>
      RouteAt(plan, Some(next), n) == Some(Directed(plan.TunnelRoutes()[n - 2], next))
  {
  }

  /** A tunnel route with the interface it is installed on. */
  function Directed(r: Route, device: DeviceHandle): Route {
    if r.reject then r else r.(iface := device.iface)
  }

  /** With the pin up, an interface is unused exactly if it was before and is not the pin's. */
  lemma UnusedWithPin(base: Table, plan: Plan, iface: string, t: Table)
    requires plan.EndpointRoute().dest !in base && t == base[plan.EndpointRoute().dest := plan.EndpointRoute()]
    ensures Unused(t, iface) <==> Unused(base, iface) && iface != plan.physicalInterface
  {
    if Unused(t, iface) {
      assert t[plan.EndpointRoute().dest].iface != iface;
      forall d | d in base ensures base[d].iface != iface {
        assert t[d] == base[d];
      }
    }
  }

  lemma DnsStillThere(base: HostState, eg: Egress, w: World, j: Journal)
    requires Forwarded(base, eg, w, j) && Startable(base, j.plan) && |j.entries| < j.plan.StepCount()
    ensures ValidPlan(j.plan) && (j.plan.UsesDNS() ==> j.plan.dnsService in w.host.dns)
  {
  }

  lemma PlanOfValid(j: Journal)
    requires ValidJournal(j)
    ensures ValidPlan(j.plan)
  {
  }
}
