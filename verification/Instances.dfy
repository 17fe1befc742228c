/** Concrete hosts for the conditions under which the transaction is proved to succeed, and for each way in which it
    does not (internal/tunnel/controller.go, internal/darwinnet/route.go). */
module TunnelInstances {
  import opened Net
  import opened Faults
  import opened TunnelModel
  import opened DarwinNet
  import opened TunnelProtocol
  import opened TunnelRollback
  import opened TunnelController
  import opened TunnelLifetime

  // ---------- hosts ----------

  /** An ordinary full-tunnel plan. */
  function SamplePlan(): Plan {
    Plan(seq(32, i => 'a'), 501, AddrPort(V4(0xc633_640a), 51820), V4(0xc0a8_0101), "en0",
         Prefix(V4(0x0a05_0002), 32), 1420, [V4(0x6767_6063)], "Wi-Fi", FullIPv4, [], seq(64, i => 'b'))
  }

  lemma SamplePlanValid()
    ensures ValidPlan(SamplePlan())
  {
    HostPrefix(SamplePlan().tunnelAddress, NoAddr);
    hide Pow2, Prefix.IsCanonical;
    assert "Wi-Fi" == ['W', 'i', '-', 'F', 'i'] && "en0" == ['e', 'n', '0'];
    assert ValidPolicy(SamplePlan());
  }

  const SCOPE: Prefix := Prefix(V4(0x0a09_0000), 16)

  /** The same for one private prefix. */
  function ScopedPlan(): Plan {
    SamplePlan().(tunnelDns := [], dnsService := "", policy := ScopedIPv4, scopedRoutes := [SCOPE])
  }

  lemma ScopedPlanValid()
    ensures ValidPlan(ScopedPlan())
  {
    SamplePlanValid();
    SampleScopeValid(ScopedPlan());
    hide Pow2, Prefix.Block, Prefix.IsCanonical, ValidScope;
    assert ValidPolicy(ScopedPlan());
  }

  lemma SampleScopeValid(plan: Plan)
    requires plan.endpoint.addr == V4(0xc633_640a) && plan.physicalGateway == V4(0xc0a8_0101)
    ensures ValidScope(plan, SCOPE)
  {
    Pow2Values();
    assert SCOPE.Block() == 0x1_0000;
    hide Pow2, Prefix.Block;
  }

  const GATEWAY: Addr := V4(0xc0a8_0101)
  const DNS_SETTINGS: Services := map["Wi-Fi" := Setting([GATEWAY], [])]

  /** A host with its default route and one more. */
  function HostWith(r: Route): HostState {
    HostState(map[r.dest := r][V4_DEFAULT := Route(V4_DEFAULT, GATEWAY, "en0", false)], DNS_SETTINGS)
  }

  /** If the other route is neither a half nor the default, Connect can start on it. */
  lemma HostStartable(plan: Plan, r: Route)
    requires r.dest != V4_LOW_HALF && r.dest != V4_HIGH_HALF && r.dest != V6_LOW_HALF && r.dest != V6_HIGH_HALF
    requires plan == SamplePlan() || plan == ScopedPlan()
    ensures Startable(HostWith(r), plan)
  {
    hide Prefix.IsCanonical, Prefix.Block, Pow2;
    SamplePlanValid();
    ScopedPlanValid();
    DefaultCanonical();
    hide ValidPlan;
    assert "en0" == ['e', 'n', '0'];
    var base := HostWith(r);
    assert NoConflict(base.routes, plan);
    assert HasDefault(base.routes);
    assert ValidServiceImage(Image(base.dns, "Wi-Fi"));
  }

  /** A host on which everything assumed elsewhere holds at once: it can be connected, and recovered without a trace. */
  lemma OrdinaryHost() returns (base: HostState, eg: Egress, plan: Plan, next: DeviceHandle)
    ensures Favourable(base, eg, plan, next) && plan.policy == FullIPv4
    ensures Unblocked(base.routes, plan) && Wired(eg, plan.EndpointRoute()) && Twinless(base.routes, plan)
  {
    hide ValidPlan, Prefix.IsCanonical, Prefix.Block, Pow2, Startable;
    plan := SamplePlan();
    base := HostWith(Route(V4_DEFAULT, GATEWAY, "en0", false));
    HostStartable(SamplePlan(), Route(V4_DEFAULT, GATEWAY, "en0", false));
    assert base.routes.Keys == {V4_DEFAULT};
    eg, next := map[GATEWAY := "en0"], DeviceHandle("utun7", 42);
    forall device: Option<DeviceHandle>, i: nat | RouteAt(plan, device, i).Some?
      ensures RouteAt(plan, device, i).value.dest !in base.routes
    {
    }
    assert TunnelFree(base.routes, plan) && plan.EndpointRoute().dest !in base.routes;
    hide RouteAt;
    assert "utun7" == ['u', 't', 'u', 'n', '7'];
    assert ValidDevice(next) && Unblocked(base.routes, plan);
  }

  /** A host that passes every check although the endpoint already has a host route like the pin. */
  lemma TwinnedHost() returns (base: HostState, plan: Plan)
    ensures Startable(base, plan) && PinTwin(base.routes, plan) && Removable(base.routes, plan.EndpointRoute())
  {
    plan := SamplePlan();
    var pin := plan.EndpointRoute();
    base := HostWith(pin);
    HostStartable(plan, pin);
    SamplePlanValid();
    PlannedRouteValid(plan, None, 0);
    hide Startable, ValidRoute;
  }

  /** A host that passes every check although the endpoint already has another host route. */
  lemma BlockedHost() returns (base: HostState, plan: Plan)
    ensures Startable(base, plan) && plan.EndpointRoute().dest in base.routes
    ensures !Removable(base.routes, plan.EndpointRoute())
    ensures !IsTwin(plan, plan.EndpointRoute().dest, base.routes[plan.EndpointRoute().dest])
  {
    plan := SamplePlan();
    var other := Route(plan.EndpointRoute().dest, NoAddr, "en5", false);
    base := HostWith(other);
    HostStartable(plan, other);
    assert "en5"[2] != "en0"[2];
    hide Startable;
  }

  /** A host that passes every check although a scoped prefix already has a route. */
  lemma BlockedScope() returns (base: HostState, eg: Egress, plan: Plan, next: DeviceHandle)
    ensures Startable(base, plan) && Obstructed(base, eg, plan, next) && plan.policy == ScopedIPv4
  {
    hide Startable, DeviceReady, HostWith;
    plan := ScopedPlan();
    var there := Route(SCOPE, NoAddr, "en5", false);
    base := HostWith(there);
    HostStartable(plan, there);
    eg, next := map[GATEWAY := "en0"], DeviceHandle("utun7", 42);
    NewInterface(there, plan, next);
    OnlyRoutes(there);
    assert plan.EndpointRoute().dest != SCOPE && plan.EndpointRoute().dest != V4_DEFAULT;
    assert plan.TunnelRoutes()[0].dest == SCOPE;
  }

  lemma OnlyRoutes(r: Route)
    ensures HostWith(r).routes.Keys == {r.dest, V4_DEFAULT}
  {
  }

  lemma NewInterface(r: Route, plan: Plan, next: DeviceHandle)
    requires plan.physicalInterface == "en0" && |r.iface| == 3 && next == DeviceHandle("utun7", 42)
    ensures DeviceReady(HostWith(r).routes, plan, next)
  {
    hide Prefix.IsCanonical;
    assert "utun7" == ['u', 't', 'u', 'n', '7'];
  }

  /** A host that passes every check although the kernel reaches the gateway over another interface. */
  lemma UnwiredHost() returns (base: HostState, eg: Egress, plan: Plan)
    ensures Startable(base, plan) && Misplaced(base, eg, plan)
  {
    plan := SamplePlan();
    base := HostWith(Route(V4_DEFAULT, GATEWAY, "en0", false));
    HostStartable(SamplePlan(), Route(V4_DEFAULT, GATEWAY, "en0", false));
    eg := map[GATEWAY := "en5"];
    assert "en5"[2] != "en0"[2];
    hide Startable;
    assert base.routes.Keys == {V4_DEFAULT};
  }

  /** A journal found in a foreign conflict, on a host that is as it was. */
  lemma ForeignJournal() returns (base: HostState, plan: Plan, j: Journal)
    ensures j.phase == ForeignConflict && j.ownerUid == plan.ownerUid && ValidSessionID(plan.sessionId)
    ensures plan.ownerUid >= 0
    ensures forall eg: Egress :: Recoverable(base, eg, plan, World(base, None, Some(j)))
  {
    plan := SamplePlan();
    base := HostWith(Route(V4_DEFAULT, GATEWAY, "en0", false));
    HostStartable(SamplePlan(), Route(V4_DEFAULT, GATEWAY, "en0", false));
    var image := Image(base.dns, "Wi-Fi");
    var before := DNSSnapshot(Revision(image), [image]);
    InitialValid(base, plan, before, 1);
    InitialPreimage(base, plan, DefaultRoute(base.routes), before, 1);
    hide Startable, ValidHeader, ValidPlan;
    var first := InitialJournal(plan, DefaultRoute(base.routes), before, 1);
    j := Phased(first, ForeignConflict, 1);
    PhasedHeader(first, ForeignConflict, 1);
  }

  // ---------- what happens on such hosts ----------

  /** Whatever a successful Connect leaves, some rollback that fails on the way takes the pin from under a tunnel route:
      it is returned, world by world. */
  method UnguardedRollback(base: HostState, eg: Egress, plan: Plan, next: DeviceHandle, now: int)
    returns (w: World, j: Journal, ghost ws: seq<World>, ghost oks: seq<bool>)
    requires Favourable(base, eg, plan, next) && now != 0
    ensures w.disk == Some(j) && j.phase == Connected && Recoverable(base, eg, plan, w) && Established(base, w, plan)
    ensures RollbackRun(true, w, j, ws, oks) && !Guarded(base.routes, plan, ws)
  {
    hide Recoverable, Established, Guarded, RollbackRun, Accounts, KeepsGuard;
    w, j := ConnectUp(base, eg, plan, next, now);
    FoundOnDisk(base, eg, plan, w);
    ConnectedLoose(base, eg, w, j);
    ws, oks := GuardLost(base, eg, w, j);
  }

  /** What an undisturbed Connect on a favourable host leaves. */
  method ConnectUp(base: HostState, eg: Egress, plan: Plan, next: DeviceHandle, now: int) returns (w: World, j: Journal)
    requires Favourable(base, eg, plan, next) && now != 0
    ensures w.disk == Some(j) && j.phase == Connected && Recoverable(base, eg, plan, w) && Established(base, w, plan)
    ensures w.device == j.device && w.device.Some? && Checked(base, plan)
  {
    hide Recoverable, Favourable, Startable, Checked, Guarded, Run, AllRecoverable, Stranded, Sticks, Installed;
    FavourableStart(base, eg, plan, next);
    var runner := new Runner(k => Works, k => 0);
    var c := FirstProcessWith(base, eg, runner, plan, next);
    var r := c.Connect(plan, now, true);
    w, j := c.Now(), c.journal;
    c.NowRecoverable();
  }

  /** Where the kernel puts the pin elsewhere, an undisturbed Connect fails and the pin stays through any number of
      Disconnects, whether or not they are disturbed; undisturbed, each of them reports it. */
  method StrandedForGood(base: HostState, eg: Egress, plan: Plan, now: int, verified: bool, fates: nat -> Fate,
                         clock: nat -> int, attempts: nat)
    returns (r: ConnectResult, w: World, oks: seq<bool>, reports: seq<seq<RollbackError>>)
    requires now != 0 && Startable(base, plan) && Misplaced(base, eg, plan)
    ensures r.Failed? && UndoFailed(0) in r.errors && Stranded(base, eg, plan, w) && w.disk.Some?
    ensures |oks| == attempts && forall i :: 0 <= i < |oks| ==> !oks[i]
    ensures |reports| == attempts && (AllWork(fates) ==> forall i :: 0 <= i < |reports| ==> UndoFailed(0) in reports[i])
  {
    hide Recoverable, Established, Startable, Checked, Guarded, Misplaced, Run, AllRecoverable, Stranded, Settled,
      ConnectVerdict, Obstructed, Taken;
    var first := FirstProcess(base, eg, k => Works, plan);
    r := first.Connect(plan, now, verified);
    var runner := new Runner(fates, clock);
    var os := new Host(first.os.routes, first.os.dns, eg, runner);
    var c := new Controller(os, first.device, first.disk, first.maybe, first.next, base, plan);
    oks, reports := FailingDisconnects(c, plan, attempts);
    w := c.Now();
    StrandedOwner(base, eg, plan, c);
  }

  /** A stranded pin makes every Disconnect fail, and stays stranded. */
  method FailingDisconnects(c: Controller, plan: Plan, attempts: nat)
    returns (oks: seq<bool>, reports: seq<seq<RollbackError>>)
    requires c.Inv() && c.plan == plan && Stranded(c.base, c.os.egress, c.plan, c.Now())
    modifies c, c.os, c.os.runner
    ensures c.Inv() && Stranded(c.base, c.os.egress, c.plan, c.Now())
    ensures |oks| == |reports| == attempts
    ensures forall i :: 0 <= i < attempts ==> !oks[i] && (AllWork(c.os.runner.fates) ==> UndoFailed(0) in reports[i])
  {
    hide Recoverable, Guarded, Run, AllRecoverable, Stranded, KeepsGuard, Verdict, Settled, Behind, LiveCount;
    oks, reports := [], [];
    for i := 0 to attempts
      invariant c.Inv() && Stranded(c.base, c.os.egress, c.plan, c.Now()) && |oks| == |reports| == i
      invariant forall k :: 0 <= k < i ==> !oks[k] && (AllWork(c.os.runner.fates) ==> UndoFailed(0) in reports[k])
    {
      StrandedOwner(c.base, c.os.egress, c.plan, c);
      var ok, errors := c.Disconnect(plan.sessionId, plan.ownerUid);
      oks, reports := oks + [ok], reports + [errors];
    }
  }

  lemma StrandedOwner(base: HostState, eg: Egress, plan: Plan, c: Controller)
    requires c.Inv() && c.base == base && c.plan == plan && c.os.egress == eg && Stranded(base, eg, plan, c.Now())
    ensures c.disk.Some? && c.Entitled(plan.sessionId, plan.ownerUid)
  {
    hide Recoverable, Stranded, AllRecoverable, Run, Guarded;
    c.NowRecoverable();
    if c.disk.None? {
      StrandedNeedsJournal(base, eg, plan, c.Now());
    }
    OwnerOf(base, eg, plan, c.Now());
  }

  /** Where a foreign route that is no twin stands at the destination of a journaled step, no Disconnect ever succeeds,
      disturbed or not, and the journal stays. */
  method BlockedForGood(c: Controller, k: nat, attempts: nat) returns (oks: seq<bool>)
    requires c.Inv() && c.device.None? && c.disk.Some?
    requires k < |c.disk.value.entries| && c.disk.value.entries[k].route.Some?
    requires var d := c.disk.value.entries[k].route.value.dest;
      d in c.base.routes && !IsTwin(c.plan, d, c.base.routes[d])
    modifies c, c.os, c.os.runner
    ensures |oks| == attempts && (forall i :: 0 <= i < |oks| ==> !oks[i]) && c.Inv() && c.disk.Some?
  {
    hide Recoverable, Guarded, Run, AllRecoverable, Stranded, KeepsGuard, Settled, IsTwin, LiveCount, Verdict,
      Owed, Spared, UndoOrder, AllRemovable, Apart;
    oks := [];
    ghost var r := c.disk.value.entries[k].route;
    c.NowRecoverable();
    FoundOnDisk(c.base, c.os.egress, c.plan, c.Now());
    var sessionId, ownerUid := c.disk.value.sessionId, c.disk.value.ownerUid;
    OwnerOf(c.base, c.os.egress, c.plan, c.Now());
    IdentityOf(c.disk.value);
    for i := 0 to attempts
      invariant c.Inv() && c.device.None? && c.disk.Some? && |oks| == i && forall n :: 0 <= n < i ==> !oks[n]
      invariant k < |c.disk.value.entries| && c.disk.value.entries[k].route == r
    {
      c.NowRecoverable();
      ghost var w := c.Now();
      FoundOnDisk(c.base, c.os.egress, c.plan, w);
      OwnerOf(c.base, c.os.egress, c.plan, w);
      BlockedEntry(c.base, c.os.egress, w, w.disk.value, k);
      var ok, errors := c.Disconnect(sessionId, ownerUid);
      BlockedVerdict(w, w.disk.value, k);
      oks := oks + [ok];
      StillThere(w.disk.value, c.disk, k);
    }
  }

  lemma IdentityOf(j: Journal)
    requires ValidJournal(j)
    ensures j.sessionId == j.plan.sessionId && j.ownerUid == j.plan.ownerUid
  {
  }

  lemma BlockedVerdict(w: World, j: Journal, k: nat)
    requires w.device.None? && k < |j.entries| && Live(j.entries[k]) && !EntryRemovable(w.host.routes, j.entries[k])
    ensures Apart(w, j) && !AllRemovable(w.host.routes, j.entries)
  {
    hide EntryRemovable;
  }

  lemma StillThere(j: Journal, disk: Option<Journal>, k: nat)
    requires k < |j.entries| && (disk.Some? ==> Behind(j, disk.value))
    ensures disk.Some? ==> k < |disk.value.entries| && disk.value.entries[k].route == j.entries[k].route
  {
    if disk.Some? {
      assert Advances(j.entries[k], disk.value.entries[k]);
    }
  }

  /** Where a tunnel route finds its destination taken, an undisturbed Connect fails, and no Disconnect of a later
      process ever succeeds, disturbed or not. */
  method TakenForGood(base: HostState, eg: Egress, plan: Plan, next: DeviceHandle, now: int, verified: bool,
                      fates: nat -> Fate, clock: nat -> int, attempts: nat)
    returns (r: ConnectResult, oks: seq<bool>)
    requires now != 0 && Startable(base, plan) && Obstructed(base, eg, plan, next)
    ensures r.Failed? && r.errors != [] && |oks| == attempts && forall i :: 0 <= i < |oks| ==> !oks[i]
  {
    hide Recoverable, Startable, Checked, Guarded, Run, AllRecoverable, Stranded, IsTwin, DeviceReady, TunnelFree,
      Established, Settled;
    var calm := new Runner(k => Works, k => 0);
    var first := FirstProcessWith(base, eg, calm, plan, next);
    r := first.Connect(plan, now, verified);
    var w, maybe := first.Now(), first.maybe;
    first.NowRecoverable();
    var runner := new Runner(fates, clock);
    var os := new Host(w.host.routes, w.host.dns, eg, runner);
    WithoutOwner(base, eg, plan, w, maybe);
    var c := new Controller(os, None, w.disk, maybe, next, base, plan);
    c.NowRecoverable();
    FoundOnDisk(base, eg, plan, c.Now());
    var es := w.disk.value.entries;
    var k :| 0 <= k < |es| && es[k].route.Some? && es[k].route.value.dest in base.routes;
    StartChecked(base, plan);
    OnlyFirstPins(w.disk.value, k);
    EntryRoute(w.disk.value, k);
    TakenNoTwin(base, plan, w.disk.value.device, k);
    oks := BlockedForGood(c, k, attempts);
  }

  /** A process that does not own the device finds a world from which it can be recovered too. */
  lemma WithoutOwner(base: HostState, eg: Egress, plan: Plan, w: World, maybe: set<Option<Journal>>)
    requires AllRecoverable(base, eg, plan, w, maybe)
    ensures AllRecoverable(base, eg, plan, w.(device := None), maybe)
  {
    hide AllRecoverable;
    assert Crashed(w, w.(device := None));
    CrashSurface(base, eg, plan, w, maybe, w.(device := None));
  }

  /** A second helper, started while the one that owns the device lives: its own device manager knows no session. The
      undisturbed Disconnect it makes reports success exactly if every live route can be removed, and the device of
      the first helper, if it had one, is then open without a journal. */
  method SecondHelper(base: HostState, eg: Egress, plan: Plan, w: World) returns (ok: bool, w': World)
    requires Recoverable(base, eg, plan, w) && w.disk.Some? && NotForeign(w.disk)
    ensures w'.device == w.device && (ok ==> w'.disk.None?)
    ensures ok && w'.device.Some? <==> w.device.Some? && AllRemovable(w.host.routes, w.disk.value.entries)
    ensures ok && w'.device.Some? ==> !Recoverable(base, eg, plan, w')
  {
    hide Recoverable, Guarded, Run, AllRecoverable, Stranded, KeepsGuard, Settled, LiveCount, AllRemovable, Covers,
      Behind;
    OnlySurface(base, eg, plan, w, {w.disk});
    WithoutOwner(base, eg, plan, w, {w.disk});
    OwnerOf(base, eg, plan, w);
    FoundOnDisk(base, eg, plan, w);
    var runner := new Runner(k => Works, k => 0);
    var os := new Host(w.host.routes, w.host.dns, eg, runner);
    var next: DeviceHandle := *;
    var c := new Controller(os, None, w.disk, {w.disk}, next, base, plan);
    var errors;
    ok, errors := c.Disconnect(plan.sessionId, plan.ownerUid);
    w' := World(HostState(c.os.routes, c.os.dns), w.device, c.disk);
    if ok && w'.device.Some? && Recoverable(base, eg, plan, w') {
      NothingLeft(base, eg, plan, w');
    }
  }

  /** That happens after any successful Connect. */
  method OrphanedDevice(base: HostState, eg: Egress, plan: Plan, next: DeviceHandle, now: int)
    returns (ok: bool, w: World)
    requires Favourable(base, eg, plan, next) && now != 0
    ensures ok && w.disk.None? && w.device.Some?
  {
    hide Recoverable, Established, Accounts, Checked, Startable, DeviceReady, TunnelFree;
    var up, j := ConnectUp(base, eg, plan, next, now);
    FoundOnDisk(base, eg, plan, up);
    UpRemovable(base, eg, up, j);
    ok, w := SecondHelper(base, eg, plan, up);
  }

  /** An undisturbed Disconnect of a journal in a foreign conflict fails and writes a phase the table does not allow. */
  method ForeignConflictKept(base: HostState, eg: Egress, plan: Plan, j: Journal) returns (ok: bool, left: Phase)
    requires Recoverable(base, eg, plan, World(base, None, Some(j))) && j.phase == ForeignConflict
    ensures !ok && left == RollbackRequired && !OnTable(j.phase, left)
  {
    hide Recoverable, Guarded, Run, AllRecoverable, Stranded, KeepsGuard, Settled, Behind, LiveCount;
    OwnerOf(base, eg, plan, World(base, None, Some(j)));
    OnlySurface(base, eg, plan, World(base, None, Some(j)), {Some(j)});
    var runner := new Runner(k => Works, k => 0);
    var os := new Host(base.routes, base.dns, eg, runner);
    var next: DeviceHandle := *;
    var c := new Controller(os, None, Some(j), {Some(j)}, next, base, plan);
    var errors;
    ok, errors := c.Disconnect(plan.sessionId, plan.ownerUid);
    left := c.disk.value.phase;
  }
}
