/** Health monitoring of a connected tunnel (internal/helperdaemon/daemon.go): what the ownership check accepts,
    and when the serving loop gives up. */
module HelperDaemon {
  import opened Net
  import opened Faults
  import opened TunnelModel
  import opened DarwinNet
  import opened TunnelProtocol
  import opened TunnelController

  // ---------- the ownership check ----------

  predicate DefaultKept(t: Table, plan: Plan) {
    HasDefault(t) && DefaultRoute(t).gateway == plan.physicalGateway && DefaultRoute(t).iface == plan.physicalInterface
  }

  /** A route stands at the planned destination and agrees with the planned one. */
  predicate Stands(t: Table, r: Route) { r.dest in t && ValidRoute(t[r.dest]) && Matches(t[r.dest], r) }

  predicate RouteKept(t: Table, plan: Plan, device: DeviceHandle, i: nat) {
    RouteAt(plan, Some(device), i).Some? ==> Stands(t, RouteAt(plan, Some(device), i).value)
  }

  predicate DnsKept(dns: Services, plan: Plan) {
    && ValidDNSConfig(plan.Config()) && plan.dnsService in dns
    && Readable(dns[plan.dnsService]) && dns[plan.dnsService].servers == plan.tunnelDns
  }

  /** The default route, every planned route and the DNS servers are as the journal has them. */
  ghost predicate Agrees(t: Table, dns: Services, plan: Plan, device: DeviceHandle) {
    DefaultKept(t, plan) && (forall i: nat :: RouteKept(t, plan, device, i)) && DnsKept(dns, plan)
  }

  /** `verifyOwnership`, for the journal of a plan whose device exists. */
  method VerifyOwnership(os: Host, plan: Plan, device: DeviceHandle) returns (ok: bool)
    modifies os.runner
    ensures os.runner.Went()
    ensures ok <==> Agrees(os.routes, os.dns, plan, device) && os.runner.Quiet()
  {
    hide Readable, ValidRoute, ValidDNSConfig, HasDefault;
    var physical := os.Snapshot();
    if || physical.None?
       || physical.value.gateway != plan.physicalGateway || physical.value.iface != plan.physicalInterface
    {
      return false;
    }
    var routes := BuildTunnelRoutes(plan);
    var expected := [plan.EndpointRoute()] + routes;
    for i := 0 to |expected|
      invariant os.runner.Went() && os.runner.Quiet()
      invariant forall k :: 0 <= k < i ==> Stands(os.routes, ExpectedAt(plan, device, k))
    {
      var route := expected[i];
      if !route.reject && route.gateway == NoAddr {
        route := route.(iface := device.iface);
      }
      assert route == ExpectedAt(plan, device, i);
      var current := os.InspectExact(route.dest);
      if !current.Found? || !Matches(current.route, route) {
        ExpectedPlanned(os.routes, plan, device);
        return false;
      }
    }
    ExpectedPlanned(os.routes, plan, device);
    if !ValidDNSConfig(plan.Config()) {
      return false;
    }
    var service := os.SnapshotService(plan.dnsService);
    ok := service.Some? && service.value.servers == plan.tunnelDns;
  }

  /** The `k`-th route the check looks for: the pin, then the tunnel routes. */
  function ExpectedAt(plan: Plan, device: DeviceHandle, k: nat): Route
    requires k <= |plan.TunnelRoutes()|
  {
    var r := ([plan.EndpointRoute()] + plan.TunnelRoutes())[k];
    if !r.reject && r.gateway == NoAddr then r.(iface := device.iface) else r
  }

  /** Those are exactly the routes of the plan's steps, as the pin has a gateway: without one the check fails on
      the default route before it comes to them. */
  lemma ExpectedPlanned(t: Table, plan: Plan, device: DeviceHandle)
    requires DefaultKept(t, plan)
    ensures (forall k :: 0 <= k <= |plan.TunnelRoutes()| ==> Stands(t, ExpectedAt(plan, device, k)))
       <==> (forall i: nat :: RouteKept(t, plan, device, i))
  {
    hide Stands;
    forall k | 0 <= k <= |plan.TunnelRoutes()|
      ensures RouteAt(plan, Some(device), if k == 0 then 0 else k + 1) == Some(ExpectedAt(plan, device, k))
    {
      assert DefaultRoute(t).gateway.V4?;
    }
    if forall k :: 0 <= k <= |plan.TunnelRoutes()| ==> Stands(t, ExpectedAt(plan, device, k)) {
      forall i: nat ensures RouteKept(t, plan, device, i) {
        if RouteAt(plan, Some(device), i).Some? {
          var k := if i == 0 then 0 else i - 1;
          assert Stands(t, ExpectedAt(plan, device, k));
        }
      }
    }
    if forall i: nat :: RouteKept(t, plan, device, i) {
      forall k | 0 <= k <= |plan.TunnelRoutes()| ensures Stands(t, ExpectedAt(plan, device, k)) {
        assert RouteKept(t, plan, device, if k == 0 then 0 else k + 1);
      }
    }
  }

  /** What a successful Connect of a full tunnel leaves is accepted. */
  lemma EstablishedAgrees(base: HostState, w: World, plan: Plan)
    requires plan.policy == FullIPv4 && Checked(base, plan) && Established(base, w, plan)
    ensures Agrees(w.host.routes, w.host.dns, plan, w.device.value)
  {
    var t, device := w.host.routes, w.device;
    assert At(t, V4_DEFAULT) == At(base.routes, V4_DEFAULT) by {
      assert !PlannedBelow(plan, device, plan.StepCount(), V4_DEFAULT);
    }
    forall i: nat ensures RouteKept(t, plan, device.value, i) {
      if RouteAt(plan, device, i).Some? {
        PlannedRouteValid(plan, device, i);
        assert i < plan.StepCount();
      }
    }
    hide RouteAt, Plan.StepCount;
    assert DnsKept(w.host.dns, plan);
  }

  /** Connect a full tunnel, with whatever failures on the way, and look: if it is up, an undisturbed check of what it
      left accepts it. */
  method CheckAfterConnect(c: Controller, plan: Plan, now: int, verified: bool)
    returns (r: ConnectResult, healthy: bool)
    requires c.Inv() && c.device.None? && c.disk.None? && c.Now().host == c.base && c.guarded
    requires c.plan == plan && plan.policy == FullIPv4
    modifies c, c.os, c.os.runner
    ensures r.Up? ==> healthy
  {
    hide Agrees, Checked, Established, Favourable, Startable, ValidPlan;
    r := c.Connect(plan, now, verified);
    healthy := false;
    if r.Up? {
      FavourableStart(c.base, c.os.egress, plan, c.next);
      StartChecked(c.base, plan);
      EstablishedAgrees(c.base, c.Now(), plan);
      var runner := new Runner(k => Works, k => 0);
      var calm := new Host(c.os.routes, c.os.dns, c.os.egress, runner);
      healthy := VerifyOwnership(calm, plan, c.device.value);
    }
  }

  /** The check looks for DNS servers, so it never accepts a scoped tunnel. */
  lemma ScopedNeverAgrees(t: Table, dns: Services, plan: Plan, device: DeviceHandle)
    requires ValidPlan(plan) && plan.policy == ScopedIPv4
    ensures !Agrees(t, dns, plan, device)
  {
  }

  // ---------- the serving loop ----------

  /** What one turn of the loop meets: cancellation, an accept that times out at `now` (with the verdict of the check,
      should one be due, and the time when it is done), a failed accept, or a request that may end the session. */
  datatype Event = Cancelled | Timeout(now: int, accepted: bool, done: int) | AcceptFailed | Served(stop: bool)

  datatype Exit = Serving | Quit | ListenerLost | Stopped | Unhealthy

  const CHECK_INTERVAL := 10

  /** When the next check is due, after the checks made so far. */
  function NextDue(start: int, checks: seq<Event>): int
    requires forall i :: 0 <= i < |checks| ==> checks[i].Timeout?
  {
    CHECK_INTERVAL + if checks == [] then start else checks[|checks| - 1].done
  }

  /** The timeouts at which a check is made, in order: those that come when one is due. */
  function Checks(start: int, events: seq<Event>): (checks: seq<Event>)
    ensures forall i :: 0 <= i < |checks| ==> checks[i].Timeout?
  {
    if events == [] then [] else
      var last := events[|events| - 1];
      var before := Checks(start, events[..|events| - 1]);
      if last.Timeout? && last.now >= NextDue(start, before) then before + [last] else before
  }

  /** The check was rejected. */
  predicate Rejected(check: Event) { check.Timeout? && !check.accepted }

  predicate RowAt(checks: seq<Event>, i: int) {
    0 <= i && i + 2 < |checks| && Rejected(checks[i]) && Rejected(checks[i + 1]) && Rejected(checks[i + 2])
  }

  /** Three rejected checks in a row. */
  predicate ThreeInARow(checks: seq<Event>) { exists i :: 0 <= i < |checks| && RowAt(checks, i) }

  /** The rejected checks at the end. */
  predicate Streak(checks: seq<Event>, n: nat) {
    && n <= |checks| && (forall i :: |checks| - n <= i < |checks| ==> Rejected(checks[i]))
    && (n < |checks| ==> !Rejected(checks[|checks| - n - 1]))
  }

  /** The event ends the session for a reason other than health. */
  predicate EndsSession(e: Event) { e.Cancelled? || e.AcceptFailed? || e == Served(true) }

  /** The loop has a reason to stop after these events. */
  predicate Over(start: int, events: seq<Event>) {
    (exists i :: 0 <= i < |events| && EndsSession(events[i])) || ThreeInARow(Checks(start, events))
  }

  /** The loop takes as many turns as it must and no more, and gives up for health exactly when the third check in
      a row is rejected. */
  method Serve(start: int, events: seq<Event>) returns (exit: Exit, turns: nat)
    ensures turns <= |events| && (exit.Serving? <==> !Over(start, events[..turns]))
    ensures if exit.Serving? then turns == |events| else turns > 0 && !Over(start, events[..turns - 1])
    ensures exit.Unhealthy? <==> ThreeInARow(Checks(start, events[..turns]))
    ensures exit.Quit? <==> turns > 0 && events[turns - 1].Cancelled?
    ensures exit.ListenerLost? <==> turns > 0 && events[turns - 1].AcceptFailed?
    ensures exit.Stopped? <==> turns > 0 && events[turns - 1] == Served(true)
    // It gives up only for three rejected checks, each the next one due after the last, and always for them.
    ensures exit.Unhealthy? ==> GaveUpAt(events, turns - 1)
    ensures forall a, b, c :: Misses(events, a, b, c) && Due(start, events, a) && Open(events, c) ==>
      exit.Unhealthy? && turns <= c + 1
  {
    assert !ThreeInARow([]) && Streak([], 0);
    hide ThreeInARow, Streak;
    var nextCheck := start + CHECK_INTERVAL;
    var failures := 0;
    turns := 0;
    while turns < |events|
      invariant turns <= |events| && !Over(start, events[..turns])
      invariant Streak(Checks(start, events[..turns]), failures) && failures < 3
      invariant nextCheck == NextDue(start, Checks(start, events[..turns]))
      invariant turns > 0 ==> !EndsSession(events[turns - 1])
    {
      var event := events[turns];
      ghost var before := Checks(start, events[..turns]);
      assert events[..turns + 1][..turns] == events[..turns];
      assert forall i :: 0 <= i < turns ==> events[..turns][i] == events[i] == events[..turns + 1][i];
      turns := turns + 1;
      match event {
        case Cancelled =>
          assert EndsSession(events[..turns][turns - 1]);
          OverByThen(start, events, turns);
          return Quit, turns;
        case AcceptFailed =>
          assert EndsSession(events[..turns][turns - 1]);
          OverByThen(start, events, turns);
          return ListenerLost, turns;
        case Served(stop) =>
          if stop {
            assert EndsSession(events[..turns][turns - 1]);
            OverByThen(start, events, turns);
            return Stopped, turns;
          }
        case Timeout(now, accepted, done) =>
          if now >= nextCheck {
            NextVerdict(before, failures, event);
            if accepted {
              failures := 0;
            } else {
              failures := failures + 1;
              if failures >= 3 {
                LastMisses(start, events, turns);
                OverByThen(start, events, turns);
                return Unhealthy, turns;
              }
            }
            nextCheck := done + CHECK_INTERVAL;
          }
      }
    }
    assert events[..turns] == events;
    if turns > 0 && Over(start, events[..turns - 1]) {
      StaysOver(start, events, turns - 1, turns);
    }
    OverByThen(start, events, turns);
    return Serving, turns;
  }

  // ---------- told from the events alone ----------

  /** It is time for a check at this timeout, whatever checks were made before: ten seconds have passed since the start,
      and since every earlier timeout was done with, or it is the first that late. */
  predicate Due(start: int, events: seq<Event>, i: int) {
    && 0 <= i < |events| && events[i].Timeout? && events[i].now >= start + 10
    && (|| (forall k :: 0 <= k < i && events[k].Timeout? ==> events[i].now >= events[k].done + 10)
        || (forall k :: 0 <= k < i && events[k].Timeout? ==> events[k].now < start + 10))
  }

  /** The second timeout is the first that comes ten seconds after the other was done with. */
  predicate Follows(events: seq<Event>, a: int, b: int) {
    && 0 <= a < b < |events| && events[a].Timeout? && events[b].Timeout? && events[b].now >= events[a].done + 10
    && forall k :: a < k < b && events[k].Timeout? ==> events[k].now < events[a].done + 10
  }

  /** Three rejected timeouts, each following the last. */
  predicate Misses(events: seq<Event>, a: int, b: int, c: int) {
    && Follows(events, a, b) && Follows(events, b, c)
    && Rejected(events[a]) && Rejected(events[b]) && Rejected(events[c])
  }

  predicate GaveUpAt(events: seq<Event>, c: int) { exists a, b :: 0 <= a < b < c && Misses(events, a, b, c) }

  /** Nothing up to the event ends the session for another reason. */
  predicate Open(events: seq<Event>, c: int) { forall k :: 0 <= k <= c && k < |events| ==> !EndsSession(events[k]) }

  predicate NextAt(events: seq<Event>, at: seq<nat>, i: int) {
    0 <= i && i + 1 < |at| && Follows(events, at[i], at[i + 1])
  }

  ghost predicate Chained(events: seq<Event>, at: seq<nat>) {
    forall i :: 0 <= i < |at| - 1 ==> NextAt(events, at, i)
  }

  /** The indices of these checks. */
  ghost predicate Placed(events: seq<Event>, checks: seq<Event>, at: seq<nat>) {
    |at| == |checks| && forall i :: 0 <= i < |at| ==> at[i] < |events| && events[at[i]] == checks[i]
  }

  /** No timeout since the last of them is late enough for another. */
  ghost predicate Early(events: seq<Event>, at: seq<nat>, due: int) {
    forall k :: (if at == [] then 0 else at[|at| - 1] + 1) <= k < |events| && events[k].Timeout? ==> events[k].now < due
  }

  /** Where the checks are among the events: each follows the one before it. */
  ghost predicate Indexed(start: int, events: seq<Event>, at: seq<nat>) {
    var checks := Checks(start, events);
    Placed(events, checks, at) && Chained(events, at) && Early(events, at, NextDue(start, checks))
  }

  lemma FollowsLonger(events: seq<Event>, n: nat, a: int, b: int)
    requires n <= |events| && Follows(events[..n], a, b)
    ensures Follows(events, a, b)
  {
    forall k | 0 <= k < n ensures events[..n][k] == events[k] {
    }
  }

  /** A check at the last event follows the one before it. */
  lemma LastFollows(start: int, events: seq<Event>, at: seq<nat>)
    requires events != [] && Indexed(start, events[..|events| - 1], at) && at != []
    requires var last := events[|events| - 1];
      last.Timeout? && last.now >= NextDue(start, Checks(start, events[..|events| - 1]))
    ensures Follows(events, at[|at| - 1], |events| - 1)
  {
    var n := |events| - 1;
    hide Checks;
    forall k | 0 <= k < n ensures events[..n][k] == events[k] {
    }
  }

  lemma PlacedNext(events: seq<Event>, checks: seq<Event>, at: seq<nat>)
    requires events != [] && Placed(events[..|events| - 1], checks, at)
    ensures Placed(events, checks, at) && Placed(events, checks + [events[|events| - 1]], at + [|events| - 1])
  {
    assert forall k :: 0 <= k < |events| - 1 ==> events[..|events| - 1][k] == events[k];
  }

  lemma ChainedNext(events: seq<Event>, at: seq<nat>)
    requires events != [] && Chained(events[..|events| - 1], at)
    ensures Chained(events, at)
    ensures at == [] || Follows(events, at[|at| - 1], |events| - 1) ==> Chained(events, at + [|events| - 1])
  {
    var n := |events| - 1;
    hide Follows;
    forall i | 0 <= i < |at| - 1 ensures NextAt(events, at, i) && NextAt(events, at + [n], i) {
      assert NextAt(events[..n], at, i);
      FollowsLonger(events, n, at[i], at[i + 1]);
    }
  }

  lemma EarlyNext(events: seq<Event>, at: seq<nat>, due: int)
    requires events != [] && Early(events[..|events| - 1], at, due)
    requires events[|events| - 1].Timeout? ==> events[|events| - 1].now < due
    ensures Early(events, at, due)
  {
    assert forall k :: 0 <= k < |events| - 1 ==> events[..|events| - 1][k] == events[k];
  }

  /** The indices go on where a check is made, and stay as they are where none is. */
  lemma IndexNext(start: int, events: seq<Event>, at: seq<nat>)
    requires events != [] && Indexed(start, events[..|events| - 1], at)
    ensures var checks := Checks(start, events);
      && (checks == Checks(start, events[..|events| - 1]) ==> Indexed(start, events, at))
      && (checks != Checks(start, events[..|events| - 1]) ==> Indexed(start, events, at + [|events| - 1]))
  {
    var n := |events| - 1;
    var before, last := Checks(start, events[..n]), events[n];
    PlacedNext(events, before, at);
    ChainedNext(events, at);
    if last.Timeout? && last.now >= NextDue(start, before) {
      if at != [] {
        LastFollows(start, events, at);
      }
      assert |Checks(start, events)| == |before| + 1;
    } else {
      EarlyNext(events, at, NextDue(start, before));
    }
    hide Placed, Chained, Follows;
  }

  lemma {:induction false} Index(start: int, events: seq<Event>) returns (at: seq<nat>)
    ensures Indexed(start, events, at)
  {
    if events == [] {
      at := [];
    } else {
      at := Index(start, events[..|events| - 1]);
      IndexNext(start, events, at);
      if Checks(start, events) != Checks(start, events[..|events| - 1]) {
        at := at + [|events| - 1];
      }
    }
  }

  /** A due timeout is checked, and so is one that follows a checked one. */
  lemma DueChecked(start: int, events: seq<Event>, i: int)
    requires Due(start, events, i)
    ensures Checks(start, events[..i + 1]) == Checks(start, events[..i]) + [events[i]]
  {
    var before := events[..i];
    assert events[..i + 1][..i] == before;
    var at := Index(start, before);
    if at != [] {
      var k := at[|at| - 1];
      assert before[k] == events[k];
      FirstLate(start, before, at);
    }
  }

  /** The first check comes at a timeout at least ten seconds after the start. */
  lemma FirstLate(start: int, events: seq<Event>, at: seq<nat>)
    requires Indexed(start, events, at) && at != []
    ensures events[at[0]].Timeout? && events[at[0]].now >= start + 10
  {
    ChecksSpaced(start, events, 0);
  }

  lemma {:induction false} NextChecked(start: int, events: seq<Event>, a: int, b: int, j: int)
    requires Follows(events, a, b) && a <= j < b
    requires Checks(start, events[..a + 1]) == Checks(start, events[..a]) + [events[a]]
    ensures Checks(start, events[..j + 1]) == Checks(start, events[..a]) + [events[a]]
    ensures j == b - 1 ==> Checks(start, events[..b + 1]) == Checks(start, events[..a]) + [events[a], events[b]]
    decreases j
  {
    if j > a {
      NextChecked(start, events, a, b, j - 1);
      assert events[..j + 1][..j] == events[..j];
    }
    if j == b - 1 {
      assert events[..b + 1][..b] == events[..b];
    }
  }

  /** The last of three misses in a row gives up. */
  lemma MissesOver(start: int, events: seq<Event>, a: int, b: int, c: int)
    requires Misses(events, a, b, c) && Due(start, events, a)
    ensures Over(start, events[..c + 1])
  {
    hide Follows, ThreeInARow, RowAt, Checks;
    FollowsIn(events, a, b);
    FollowsIn(events, b, c);
    var before := Checks(start, events[..a]);
    DueChecked(start, events, a);
    NextChecked(start, events, a, b, b - 1);
    NextChecked(start, events, b, c, c - 1);
    var all := before + [events[a], events[b]] + [events[c]];
    assert Checks(start, events[..b]) == before + [events[a]];
    assert Checks(start, events[..c + 1]) == all;
    RowEnds(before, events[a], events[b], events[c]);
    assert before + [events[a], events[b], events[c]] == all;
  }

  lemma FollowsIn(events: seq<Event>, a: int, b: int)
    requires Follows(events, a, b)
    ensures 0 <= a < b < |events|
  {
  }

  lemma RowEnds(before: seq<Event>, x: Event, y: Event, z: Event)
    requires Rejected(x) && Rejected(y) && Rejected(z)
    ensures ThreeInARow(before + [x, y, z])
  {
    assert RowAt(before + [x, y, z], |before|);
  }

  /** No three misses in a row have gone by unnoticed. */
  lemma OverByThen(start: int, events: seq<Event>, turns: nat)
    requires turns <= |events| && (turns > 0 ==> !Over(start, events[..turns - 1]))
    ensures forall a, b, c :: Misses(events, a, b, c) && Due(start, events, a) ==>
      turns <= c + 1 && (turns == c + 1 ==> Over(start, events[..turns]))
  {
    hide Over, Misses, Due;
    forall a, b, c | Misses(events, a, b, c) && Due(start, events, a)
      ensures turns <= c + 1 && (turns == c + 1 ==> Over(start, events[..turns]))
    {
      MissesOver(start, events, a, b, c);
      MissesIn(events, a, b, c);
      if c + 1 < turns {
        StaysOver(start, events, c + 1, turns - 1);
      }
    }
  }

  lemma MissesIn(events: seq<Event>, a: int, b: int, c: int)
    requires Misses(events, a, b, c)
    ensures 0 <= a < b < c < |events|
  {
  }

  lemma {:induction false} StaysOver(start: int, events: seq<Event>, i: nat, j: nat)
    requires i <= j <= |events| && Over(start, events[..i])
    ensures Over(start, events[..j])
    decreases j
  {
    if i < j {
      StaysOver(start, events, i, j - 1);
      assert events[..j][..j - 1] == events[..j - 1];
      var before, after := Checks(start, events[..j - 1]), Checks(start, events[..j]);
      if k :| 0 <= k < |before| && RowAt(before, k) {
        assert RowAt(after, k);
      }
      forall k | 0 <= k < j - 1 ensures events[..j][k] == events[..j - 1][k] {
      }
    }
  }

  /** Where it gives up, the last three checks are the misses. */
  lemma LastMisses(start: int, events: seq<Event>, turns: nat)
    requires 0 < turns <= |events| && ThreeInARow(Checks(start, events[..turns]))
    requires !ThreeInARow(Checks(start, events[..turns - 1]))
    ensures GaveUpAt(events, turns - 1)
  {
    var es := events[..turns];
    assert es[..turns - 1] == events[..turns - 1];
    var at := Index(start, es[..turns - 1]);
    IndexNext(start, es, at);
    at := at + [turns - 1];
    var checks := Checks(start, es);
    var i :| 0 <= i < |checks| && RowAt(checks, i);
    var before := Checks(start, es[..turns - 1]);
    if i + 2 < |before| {
      assert RowAt(before, i);
    }
    assert forall k :: 0 <= k < turns ==> es[k] == events[k];
    assert NextAt(es, at, i) && NextAt(es, at, i + 1);
    assert Misses(events, at[i], at[i + 1], at[i + 2]);
  }

  lemma NextVerdict(checks: seq<Event>, n: nat, check: Event)
    requires Streak(checks, n) && n < 3 && !ThreeInARow(checks) && check.Timeout?
    ensures Streak(checks + [check], if check.accepted then 0 else n + 1)
    ensures ThreeInARow(checks + [check]) <==> !check.accepted && n == 2
  {
    var next := checks + [check];
    if n == 2 && !check.accepted {
      assert RowAt(next, |checks| - 2);
    }
    if i :| 0 <= i < |next| && RowAt(next, i) {
      assert i + 2 < |checks| ==> RowAt(checks, i);
    }
  }

  /** The first check comes no earlier than an interval after the start, each later one no earlier than an interval
      after the one before it was done. */
  lemma {:induction false} ChecksSpaced(start: int, events: seq<Event>, i: nat)
    requires i < |Checks(start, events)|
    ensures Checks(start, events)[i].now >= CHECK_INTERVAL + if i == 0 then start else Checks(start, events)[i - 1].done
  {
    var before := Checks(start, events[..|events| - 1]);
    if i < |before| {
      ChecksSpaced(start, events[..|events| - 1], i);
    }
  }

  /** An accepted check starts the count again: three rejected in a row lie all before it or all after it. */
  lemma SuccessResets(before: seq<Event>, check: Event, after: seq<Event>)
    requires !Rejected(check)
    ensures ThreeInARow(before + [check] + after) <==> ThreeInARow(before) || ThreeInARow(after)
  {
    var all, n := before + [check] + after, |before|;
    if i :| 0 <= i < |all| && RowAt(all, i) {
      assert if i + 2 < n then RowAt(before, i) else RowAt(after, i - n - 1);
    }
    if i :| 0 <= i < |after| && RowAt(after, i) {
      assert RowAt(all, n + 1 + i);
    }
    if i :| 0 <= i < |before| && RowAt(before, i) {
      assert RowAt(all, i);
    }
  }
}
