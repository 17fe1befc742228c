/** What a rollback can and cannot do: runs of undos along a journal, last entry first
    (internal/tunnel/controller.go).

    A run lists the worlds before and after each undo. The journal on disk plays no part in an undo, so the worlds
    of a run are compared without it. */
module TunnelRollback {
  import opened Net
  import opened TunnelModel
  import opened DarwinNet
  import opened TunnelProtocol

  // ---------- runs ----------

  function Bare(w: World): World { w.(disk := None) }

  ghost predicate UndoRun(flaky: bool, j: Journal, order: seq<nat>, ws: seq<World>, oks: seq<bool>) {
    && |ws| == |order| + 1 && |oks| == |order|
    && forall m :: 0 <= m < |order| ==> UndoStep(flaky, j, order, ws, oks, m)
  }

  ghost predicate UndoStep(flaky: bool, j: Journal, order: seq<nat>, ws: seq<World>, oks: seq<bool>, m: nat)
    requires m < |order| == |oks| && |ws| == |order| + 1
  {
    order[m] < |j.entries| && UndoOutcome(flaky, ws[m], j, order[m], ws[m + 1], oks[m])
  }

  /** The journal accounts for the world. */
  ghost predicate Accounts(base: HostState, eg: Egress, w: World, j: Journal) {
    ValidJournal(j) && Covers(base, eg, w.host, w.device, j)
  }

  /** A whole rollback of the journal from the world. */
  ghost predicate RollbackRun(flaky: bool, w: World, j: Journal, ws: seq<World>, oks: seq<bool>) {
    UndoRun(flaky, j, UndoOrder(j.entries, 0), ws, oks) && ws[0] == w
  }

  lemma {:induction false} RunAccounts(base: HostState, eg: Egress, flaky: bool, j: Journal, order: seq<nat>,
                                       ws: seq<World>, oks: seq<bool>, m: nat)
    requires UndoRun(flaky, j, order, ws, oks) && Accounts(base, eg, ws[0], j) && m < |ws|
    ensures Accounts(base, eg, ws[m], j)
  {
    hide ValidJournal, Covers, UndoOutcome;
    if m > 0 {
      RunAccounts(base, eg, flaky, j, order, ws, oks, m - 1);
      assert UndoStep(flaky, j, order, ws, oks, m - 1);
      UndoCovers(base, eg, flaky, ws[m - 1], j, order[m - 1], ws[m], oks[m - 1], j);
    }
  }

  lemma {:induction false} RunShrinks(flaky: bool, j: Journal, order: seq<nat>, ws: seq<World>, oks: seq<bool>, a: nat,
                                      b: nat)
    requires UndoRun(flaky, j, order, ws, oks) && a <= b < |ws|
    ensures Shrunk(ws[a], ws[b])
    decreases b
  {
    hide UndoOutcome;
    if a < b {
      RunShrinks(flaky, j, order, ws, oks, a, b - 1);
      assert UndoStep(flaky, j, order, ws, oks, b - 1);
      UndoShrinks(flaky, ws[b - 1], j, order[b - 1], ws[b], oks[b - 1]);
      ShrunkTrans(ws[a], ws[b - 1], ws[b]);
    }
  }

  lemma ShrunkTrans(a: World, b: World, c: World)
    requires Shrunk(a, b) && Shrunk(b, c)
    ensures Shrunk(a, c)
  {
    forall d ensures At(c.host.routes, d) == At(a.host.routes, d) || d !in c.host.routes {
      assert At(c.host.routes, d) == At(b.host.routes, d) || d !in c.host.routes;
    }
  }

  /** A live entry has its turn, after every later one. */
  lemma Turn(es: seq<Entry>, k: nat) returns (q: nat)
    requires k < |es| && Live(es[k])
    ensures q < |UndoOrder(es, 0)| && UndoOrder(es, 0)[q] == k
  {
    UndoOrderExact(es, 0);
    q :| 0 <= q < |UndoOrder(es, 0)| && UndoOrder(es, 0)[q] == k;
  }

  // ---------- the pin outlives the tunnel routes, or does not ----------

  /** The entry's own route, if it has one, does not stand. */
  predicate Cleared(base: Table, t: Table, e: Entry) {
    Live(e) && e.route.Some? && e.route.value.dest !in base ==> e.route.value.dest !in t
  }

  /** A live tunnel entry's own route stands. */
  ghost predicate TunnelStands(base: Table, t: Table, j: Journal) {
    exists n :: 2 <= n < |j.entries| && !Cleared(base, t, j.entries[n])
  }

  /** Something a rollback does may take the pin away: its own undo, if the entry is live and the route agrees, or
      the end of a device that the pin, of all routes, leaves through. */
  predicate PinLoose(w: World, j: Journal) {
    var pin, t := j.plan.EndpointRoute(), w.host.routes;
    && pin.dest in t
    && (|| (|j.entries| > 0 && Live(j.entries[0]) && Matches(t[pin.dest], pin))
        || (w.device.Some? && t[pin.dest].iface == w.device.value.iface))
  }

  /** A route that is neither old nor the pin is held by a live tunnel entry. */
  lemma TunnelOwner(base: HostState, eg: Egress, w: World, j: Journal, d: Prefix) returns (n: nat)
    requires Accounts(base, eg, w, j)
    requires d in w.host.routes && d !in base.routes && d != j.plan.EndpointRoute().dest
    ensures 2 <= n && LiveAt(j, n, d)
  {
    hide ValidHeader, ValidStatuses;
    assert SettledAt(base.routes, w.host.routes, j.plan, d) || OursAt(base.routes, w.host.routes, eg, j, d);
    n :| Ours(base.routes, w.host.routes, eg, j, n, d);
    assert j.entries[n].route == RouteAt(j.plan, j.device, n);
  }

  /** From the third entry on, no step touches the pin or the device. */
  lemma OnlyFirstPins(j: Journal, i: nat)
    requires ValidJournal(j) && i < |j.entries|
    ensures i >= 2 ==> j.entries[i].kind != Device
    ensures i >= 1 && j.entries[i].route.Some? ==> j.entries[i].route.value.dest != j.plan.EndpointRoute().dest
    ensures i == 0 ==> j.entries[i].kind == EndpointRoute && j.entries[i].route == Some(j.plan.EndpointRoute())
    ensures i == 1 ==> j.entries[i].kind == Device && j.entries[i].route.None?
  {
    hide ValidStatuses;
    assert j.entries[i].kind == KindAt(j.plan, i) && j.entries[i].route == RouteAt(j.plan, j.device, i);
    if i >= 2 && j.entries[i].route.Some? {
      HeaderFacts(j);
      PlannedDistinct(j.plan, j.device, 0, i);
    }
  }

  /** In reverse order no tunnel route outlives the pin: a step keeps the guard if no later tunnel entry's own
      route stands. */
  lemma UndoPinGuard(base: HostState, eg: Egress, flaky: bool, w: World, j: Journal, i: nat, w': World, ok: bool)
    requires Accounts(base, eg, w, j) && i < |j.entries|
    requires UndoOutcome(flaky, w, j, i, w', ok) && PinGuard(base.routes, j.plan, w)
    requires forall k :: i < k < |j.entries| && k >= 2 ==> Cleared(base.routes, w.host.routes, j.entries[k])
    ensures PinGuard(base.routes, j.plan, w')
  {
    hide ValidJournal, Covers, RestoreOutcome, Matches;
    UndoShrinks(flaky, w, j, i, w', ok);
    var pin, t, t' := j.plan.EndpointRoute().dest, w.host.routes, w'.host.routes;
    if d :| d in t' && d !in base.routes && d != pin {
      assert At(t', d) == At(t, d);
      var n := TunnelOwner(base, eg, w, j, d);
      OnlyFirstPins(j, i);
      assert n <= i && pin in t;
    }
  }

  /** A pin that nothing can take away stays, and stays so. */
  lemma TightPin(base: HostState, flaky: bool, w: World, j: Journal, i: nat, w': World, ok: bool)
    requires ValidJournal(j) && i < |j.entries| && Live(j.entries[i]) && UndoOutcome(flaky, w, j, i, w', ok)
    requires !PinLoose(w, j) && PinGuard(base.routes, j.plan, w)
    ensures !PinLoose(w', j) && PinGuard(base.routes, j.plan, w')
  {
    hide ValidJournal, RestoreOutcome, Matches;
    UndoShrinks(flaky, w, j, i, w', ok);
    OnlyFirstPins(j, i);
    var pin, t, t' := j.plan.EndpointRoute().dest, w.host.routes, w'.host.routes;
    assert At(t', pin) == At(t, pin) || pin !in t';
    if pin in t {
      assert pin in t';
    } else {
      forall d | d in t' && d !in base.routes ensures d == pin {
        assert At(t', d) == At(t, d);
      }
    }
  }

  /** Without failures the undo of a tunnel entry clears its own route, whatever else stands in the way. */
  lemma UndoClears(base: HostState, eg: Egress, w: World, j: Journal, i: nat, w': World, ok: bool)
    requires Accounts(base, eg, w, j) && 2 <= i < |j.entries| && UndoOutcome(false, w, j, i, w', ok)
    ensures Cleared(base.routes, w'.host.routes, j.entries[i])
  {
    hide ValidHeader, ValidStatuses, ValidRoute, Preimage, DnsOk, DeviceOk, RestoreOutcome, ValidPlan, ValidDevice;
    assert j.entries[i].kind == KindAt(j.plan, i) && j.entries[i].route == RouteAt(j.plan, j.device, i);
    if j.entries[i].route.Some? {
      var r, t := j.entries[i].route.value, w.host.routes;
      HeaderFacts(j);
      PlannedRouteValid(j.plan, j.device, i);
      assert !r.gateway.IsValid();
      if r.dest in t && r.dest !in base.routes {
        assert SettledAt(base.routes, t, j.plan, r.dest) || OursAt(base.routes, t, eg, j, r.dest);
        var n: nat :| Ours(base.routes, t, eg, j, n, r.dest);
        OwnEntry(j, i, n);
        assert t[r.dest] == r;
      }
    }
  }

  /** An undo that reports success clears its entry. */
  lemma UndoneClears(base: HostState, flaky: bool, w: World, j: Journal, i: nat, w': World)
    requires ValidJournal(j) && i < |j.entries| && UndoOutcome(flaky, w, j, i, w', true)
    ensures Cleared(base.routes, w'.host.routes, j.entries[i])
  {
    hide ValidHeader, ValidStatuses;
    assert j.entries[i].kind == KindAt(j.plan, i) && j.entries[i].route == RouteAt(j.plan, j.device, i);
  }

  lemma StaysCleared(base: Table, w: World, w': World, e: Entry)
    requires Shrunk(w, w') && Cleared(base, w.host.routes, e)
    ensures Cleared(base, w'.host.routes, e)
  {
    if e.route.Some? {
      var d := e.route.value.dest;
      assert At(w'.host.routes, d) == At(w.host.routes, d) || d !in w'.host.routes;
    }
  }

  /** After its turn a tunnel entry's own route is gone. */
  ghost predicate ClearsInTurn(base: Table, j: Journal, order: seq<nat>, ws: seq<World>, q: nat) {
    q < |order| && q + 1 < |ws| && 2 <= order[q] < |j.entries| ==>
      Cleared(base, ws[q + 1].host.routes, j.entries[order[q]])
  }

  /** If each tunnel entry's own route is gone after its turn, the guard holds throughout. */
  lemma {:induction false} ClearedGuards(base: HostState, eg: Egress, flaky: bool, j: Journal, ws: seq<World>,
                                         oks: seq<bool>, m: nat)
    requires UndoRun(flaky, j, UndoOrder(j.entries, 0), ws, oks) && Accounts(base, eg, ws[0], j)
    requires PinGuard(base.routes, j.plan, ws[0]) && m < |ws|
    requires forall q: nat :: ClearsInTurn(base.routes, j, UndoOrder(j.entries, 0), ws, q)
    ensures PinGuard(base.routes, j.plan, ws[m])
  {
    hide Accounts, UndoOutcome, PinGuard, Cleared, Shrunk;
    if m > 0 {
      var order := UndoOrder(j.entries, 0);
      var i := order[m - 1];
      ClearedGuards(base, eg, flaky, j, ws, oks, m - 1);
      RunAccounts(base, eg, flaky, j, order, ws, oks, m - 1);
      UndoOrderExact(j.entries, 0);
      assert UndoStep(flaky, j, order, ws, oks, m - 1);
      forall k | i < k < |j.entries| && k >= 2 ensures Cleared(base.routes, ws[m - 1].host.routes, j.entries[k]) {
        if Live(j.entries[k]) {
          var q := Turn(j.entries, k);
          assert order[q] > order[m - 1];
          assert ClearsInTurn(base.routes, j, order, ws, q);
          RunShrinks(flaky, j, order, ws, oks, q + 1, m - 1);
          StaysCleared(base.routes, ws[q + 1], ws[m - 1], j.entries[k]);
        } else {
          DeadCleared(base.routes, ws[m - 1].host.routes, j.entries[k]);
        }
      }
      UndoPinGuard(base, eg, flaky, ws[m - 1], j, i, ws[m], oks[m - 1]);
    }
  }

  lemma DeadCleared(base: Table, t: Table, e: Entry)
    requires !Live(e)
    ensures Cleared(base, t, e)
  {
  }

  lemma {:induction false} TightGuards(base: HostState, flaky: bool, j: Journal, ws: seq<World>, oks: seq<bool>, m: nat)
    requires ValidJournal(j) && UndoRun(flaky, j, UndoOrder(j.entries, 0), ws, oks) && m < |ws|
    requires PinGuard(base.routes, j.plan, ws[0]) && !PinLoose(ws[0], j)
    ensures PinGuard(base.routes, j.plan, ws[m]) && !PinLoose(ws[m], j)
  {
    hide ValidJournal, UndoOutcome, PinGuard, PinLoose;
    if m > 0 {
      TightGuards(base, flaky, j, ws, oks, m - 1);
      UndoOrderExact(j.entries, 0);
      assert UndoStep(flaky, j, UndoOrder(j.entries, 0), ws, oks, m - 1);
      var i := UndoOrder(j.entries, 0)[m - 1];
      assert i in UndoOrder(j.entries, 0);
      TightPin(base, flaky, ws[m - 1], j, i, ws[m], oks[m - 1]);
    }
  }

  /** What is known before a rollback that makes it keep the guard. */
  ghost predicate KeepsGuard(base: HostState, flaky: bool, w: World, j: Journal) {
    !flaky || !TunnelStands(base.routes, w.host.routes, j) || !PinLoose(w, j)
  }

  /** With no failures, or with no tunnel route up, or with a pin that nothing takes away, every rollback keeps the
      guard at every step. */
  lemma GuardKept(base: HostState, eg: Egress, flaky: bool, w: World, j: Journal, ws: seq<World>, oks: seq<bool>)
    requires Accounts(base, eg, w, j) && PinGuard(base.routes, j.plan, w) && RollbackRun(flaky, w, j, ws, oks)
    requires KeepsGuard(base, flaky, w, j)
    ensures Guarded(base.routes, j.plan, ws)
  {
    hide UndoOutcome, PinGuard, PinLoose, Covers, ValidJournal, Shrunk;
    var order := UndoOrder(j.entries, 0);
    forall m | 0 <= m < |ws| ensures PinGuard(base.routes, j.plan, ws[m]) {
      if !PinLoose(w, j) {
        TightGuards(base, flaky, j, ws, oks, m);
      } else {
        forall q: nat ensures ClearsInTurn(base.routes, j, order, ws, q) {
          if q < |order| && q + 1 < |ws| && 2 <= order[q] < |j.entries| {
            assert UndoStep(flaky, j, order, ws, oks, q);
            if !flaky {
              RunAccounts(base, eg, flaky, j, order, ws, oks, q);
              UndoClears(base, eg, ws[q], j, order[q], ws[q + 1], oks[q]);
            } else {
              RunShrinks(flaky, j, order, ws, oks, 0, q + 1);
              StaysCleared(base.routes, w, ws[q + 1], j.entries[order[q]]);
            }
          }
        }
        ClearedGuards(base, eg, flaky, j, ws, oks, m);
      }
    }
  }

  /** So does a rollback that undoes every tunnel entry. */
  lemma UndoneGuards(base: HostState, eg: Egress, flaky: bool, w: World, j: Journal, ws: seq<World>, oks: seq<bool>)
    requires Accounts(base, eg, w, j) && PinGuard(base.routes, j.plan, w) && RollbackRun(flaky, w, j, ws, oks)
    requires forall q :: 0 <= q < |oks| && UndoOrder(j.entries, 0)[q] >= 2 ==> oks[q]
    ensures Guarded(base.routes, j.plan, ws)
  {
    hide UndoOutcome, PinGuard, Covers, ValidJournal, Cleared;
    var order := UndoOrder(j.entries, 0);
    forall q: nat ensures ClearsInTurn(base.routes, j, order, ws, q) {
      if q < |order| && q + 1 < |ws| && 2 <= order[q] < |j.entries| {
        assert UndoStep(flaky, j, order, ws, oks, q);
        UndoneClears(base, flaky, ws[q], j, order[q], ws[q + 1]);
      }
    }
    forall m | 0 <= m < |ws| ensures PinGuard(base.routes, j.plan, ws[m]) {
      ClearedGuards(base, eg, flaky, j, ws, oks, m);
    }
  }

  /** An undo may always fail without effect. */
  lemma UndoMayFail(w: World, j: Journal, i: nat)
    requires i < |j.entries|
    ensures UndoOutcome(true, w, j, i, w, false)
  {
  }

  /** The pin's own undo, or the end of the device, may take the pin and nothing else, and report failure. */
  lemma PinMayGo(base: HostState, eg: Egress, w: World, j: Journal) returns (i: nat, w': World)
    requires Accounts(base, eg, w, j) && PinLoose(w, j)
    ensures i < |j.entries| && Live(j.entries[i]) && UndoOutcome(true, w, j, i, w', false)
    ensures w'.host.routes == w.host.routes - {j.plan.EndpointRoute().dest}
  {
    hide ValidJournal, RoutesOk, Preimage, DnsOk, Unused;
    var pin, t := j.plan.EndpointRoute(), w.host.routes;
    var t' := t - {pin.dest};
    if |j.entries| > 0 && Live(j.entries[0]) && Matches(t[pin.dest], pin) {
      i, w' := 0, w.(host := w.host.(routes := t'));
      OnlyFirstPins(j, 0);
    } else {
      i, w' := 1, World(w.host.(routes := t'), None, w.disk);
      OnlyFirstPins(j, 1);
      assert Purged(t, w.device, t');
    }
  }

  /** Otherwise some rollback loses the guard: every undo fails but the one that takes the pin. */
  lemma GuardLost(base: HostState, eg: Egress, w: World, j: Journal) returns (ws: seq<World>, oks: seq<bool>)
    requires Accounts(base, eg, w, j) && !KeepsGuard(base, true, w, j)
    ensures RollbackRun(true, w, j, ws, oks) && !Guarded(base.routes, j.plan, ws)
  {
    hide Accounts, PinLoose, UndoOutcome;
    var i, w' := PinMayGo(base, eg, w, j);
    var p := Turn(j.entries, i);
    var order := UndoOrder(j.entries, 0);
    UndoOrderExact(j.entries, 0);
    ws := seq(|order| + 1, k => if k <= p then w else w');
    oks := seq(|order|, k => false);
    forall m | 0 <= m < |order| ensures UndoStep(true, j, order, ws, oks, m) {
      assert order[m] in order;
      if m != p {
        UndoMayFail(ws[m], j, order[m]);
      }
    }
    var n :| 2 <= n < |j.entries| && !Cleared(base.routes, w.host.routes, j.entries[n]);
    var d := j.entries[n].route.value.dest;
    assert d != j.plan.EndpointRoute().dest by {
      assert ValidJournal(j) by { AccountsValid(base, eg, w, j); }
      OnlyFirstPins(j, n);
    }
    assert d in w'.host.routes && d !in base.routes;
    assert !PinGuard(base.routes, j.plan, ws[|order|]);
  }

  lemma AccountsValid(base: HostState, eg: Egress, w: World, j: Journal)
    requires Accounts(base, eg, w, j)
    ensures ValidJournal(j)
  {
  }

  /** After a successful Connect the tunnel routes stand and the pin is loose. */
  lemma ConnectedLoose(base: HostState, eg: Egress, w: World, j: Journal)
    requires Accounts(base, eg, w, j) && j.phase == Connected && Established(base, w, j.plan) && w.device == j.device
    ensures !KeepsGuard(base, true, w, j)
  {
    hide ValidHeader, Covers, Unused, ValidDevice;
    HeaderFacts(j);
    var t := w.host.routes;
    assert |j.plan.TunnelRoutes()| > 0;
    hide ValidPlan;
    assert RouteAt(j.plan, w.device, 0) == Some(j.plan.EndpointRoute()) && RouteAt(j.plan, w.device, 2).Some?;
    assert At(t, j.plan.EndpointRoute().dest) == Some(j.plan.EndpointRoute());
    assert j.entries[0].status == Applied && j.entries[2].status == Applied;
    assert j.entries[2].route == RouteAt(j.plan, j.device, 2);
    assert !Cleared(base.routes, t, j.entries[2]);
  }

  /** Every rollback of the world keeps the guard. */
  ghost predicate AlwaysGuarded(base: HostState, flaky: bool, w: World, j: Journal) {
    forall ws, oks :: RollbackRun(flaky, w, j, ws, oks) ==> Guarded(base.routes, j.plan, ws)
  }

  /** A rollback keeps a tunnel route from outliving the pin, whatever fails, exactly if nothing can fail, or no
      tunnel route of the journal stands, or nothing can take the pin away. */
  lemma GuardExact(base: HostState, eg: Egress, flaky: bool, w: World, j: Journal)
    requires Accounts(base, eg, w, j) && PinGuard(base.routes, j.plan, w)
    ensures AlwaysGuarded(base, flaky, w, j) <==> KeepsGuard(base, flaky, w, j)
  {
    hide Accounts, RollbackRun, Guarded, PinGuard;
    if KeepsGuard(base, flaky, w, j) {
      forall ws, oks | RollbackRun(flaky, w, j, ws, oks) ensures Guarded(base.routes, j.plan, ws) {
        GuardKept(base, eg, flaky, w, j, ws, oks);
      }
    } else {
      var ws, oks := GuardLost(base, eg, w, j);
      assert RollbackRun(flaky, w, j, ws, oks);
    }
  }

  // ---------- when an undisturbed rollback succeeds ----------

  predicate EntryRemovable(t: Table, e: Entry) { e.route.Some? ==> Removable(t, e.route.value) }

  /** Nothing stands at the destination of a live entry that disagrees with it. */
  predicate AllRemovable(t: Table, es: seq<Entry>) {
    forall k :: 0 <= k < |es| && Live(es[k]) ==> EntryRemovable(t, es[k])
  }

  /** The pin does not leave through the device. */
  predicate Apart(w: World, j: Journal) {
    var pin := j.plan.EndpointRoute().dest;
    w.device.Some? && pin in w.host.routes ==> w.host.routes[pin].iface != w.device.value.iface
  }

  /** An entry is undone only if its route can be removed, and then always unless a command fails; DNS and the device
      always can. */
  lemma UndoExact(base: HostState, eg: Egress, flaky: bool, w: World, j: Journal, i: nat, w': World, ok: bool)
    requires Accounts(base, eg, w, j) && i < |j.entries| && Live(j.entries[i]) && UndoOutcome(flaky, w, j, i, w', ok)
    ensures ok ==> EntryRemovable(w.host.routes, j.entries[i])
    ensures !flaky && EntryRemovable(w.host.routes, j.entries[i]) ==> ok
  {
    hide ValidHeader, ValidStatuses, ValidRoute, ValidPlan, ValidDevice, RoutesOk, Unused, RestoreOutcome;
    assert j.entries[i].kind == KindAt(j.plan, i) && j.entries[i].route == RouteAt(j.plan, j.device, i);
    HeaderFacts(j);
    if j.entries[i].kind == DNS {
      RestoreKeeps(base, w.host, j, flaky, w'.host.dns, ok);
    } else if j.entries[i].kind != Device {
      PlannedRouteValid(j.plan, j.device, i);
    }
  }

  lemma StaysRemovable(w: World, w': World, e: Entry)
    requires Shrunk(w, w') && EntryRemovable(w.host.routes, e)
    ensures EntryRemovable(w'.host.routes, e)
  {
    if e.route.Some? {
      var d := e.route.value.dest;
      assert At(w'.host.routes, d) == At(w.host.routes, d) || d !in w'.host.routes;
    }
  }

  /** The undo of a later entry does not touch an earlier one's destination. */
  lemma UndoElsewhere(base: HostState, eg: Egress, flaky: bool, w: World, j: Journal, i: nat, w': World, ok: bool,
                      k: nat)
    requires ValidJournal(j) && k < i < |j.entries| && j.entries[k].route.Some? && UndoOutcome(flaky, w, j, i, w', ok)
    requires Apart(w, j)
    ensures At(w'.host.routes, j.entries[k].route.value.dest) == At(w.host.routes, j.entries[k].route.value.dest)
    ensures Apart(w', j)
  {
    hide ValidHeader, ValidStatuses, RestoreOutcome, Matches, ValidRoute, ValidPlan, ValidDevice;
    UndoShrinks(flaky, w, j, i, w', ok);
    var d, pin := j.entries[k].route.value.dest, j.plan.EndpointRoute().dest;
    assert At(w'.host.routes, pin) == At(w.host.routes, pin) || pin !in w'.host.routes;
    assert j.entries[k].route == RouteAt(j.plan, j.device, k);
    assert j.entries[i].kind == KindAt(j.plan, i) && j.entries[i].route == RouteAt(j.plan, j.device, i);
    if j.entries[i].route.Some? {
      HeaderFacts(j);
      PlannedDistinct(j.plan, j.device, k, i);
    }
  }

  lemma {:induction false} UntouchedBefore(base: HostState, eg: Egress, flaky: bool, j: Journal, ws: seq<World>,
                                           oks: seq<bool>, q: nat, p: nat)
    requires ValidJournal(j) && UndoRun(flaky, j, UndoOrder(j.entries, 0), ws, oks) && p <= q < |oks| && Apart(ws[0], j)
    requires UndoOrder(j.entries, 0)[q] < |j.entries| && j.entries[UndoOrder(j.entries, 0)[q]].route.Some?
    ensures Apart(ws[p], j)
    ensures var d := j.entries[UndoOrder(j.entries, 0)[q]].route.value.dest;
      At(ws[p].host.routes, d) == At(ws[0].host.routes, d)
  {
    hide ValidJournal, UndoOutcome, Apart;
    if p > 0 {
      var order := UndoOrder(j.entries, 0);
      UntouchedBefore(base, eg, flaky, j, ws, oks, q, p - 1);
      UndoOrderExact(j.entries, 0);
      assert UndoStep(flaky, j, order, ws, oks, p - 1);
      assert order[p - 1] > order[q];
      UndoElsewhere(base, eg, flaky, ws[p - 1], j, order[p - 1], ws[p], oks[p - 1], order[q]);
    }
  }

  // ---------- what failures cost ----------

  function Count(bs: seq<bool>): (n: nat)
    ensures n <= |bs|
  {
    if bs == [] then 0 else Count(bs[..|bs| - 1]) + if bs[|bs| - 1] then 1 else 0
  }

  /** A run of undos in which only those turns are disturbed that are `hits`. */
  ghost predicate HitRun(hits: seq<bool>, j: Journal, order: seq<nat>, ws: seq<World>, oks: seq<bool>) {
    && |ws| == |order| + 1 && |oks| == |order| == |hits|
    && forall m :: 0 <= m < |order| ==> UndoStep(hits[m], j, order, ws, oks, m)
  }

  lemma UndoAnyway(flaky: bool, w: World, j: Journal, i: nat, w': World, ok: bool)
    requires i < |j.entries| && UndoOutcome(flaky, w, j, i, w', ok)
    ensures UndoOutcome(true, w, j, i, w', ok)
  {
  }

  lemma {:induction false} NoHits(hits: seq<bool>, m: nat)
    requires Count(hits) == 0 && m < |hits|
    ensures !hits[m]
  {
    if m < |hits| - 1 {
      NoHits(hits[..|hits| - 1], m);
    }
  }

  lemma HitRunIsRun(flaky: bool, hits: seq<bool>, j: Journal, order: seq<nat>, ws: seq<World>, oks: seq<bool>)
    requires HitRun(hits, j, order, ws, oks) && (!flaky ==> Count(hits) == 0)
    ensures UndoRun(flaky, j, order, ws, oks)
  {
    hide UndoOutcome;
    forall m | 0 <= m < |order| ensures UndoStep(flaky, j, order, ws, oks, m) {
      assert UndoStep(hits[m], j, order, ws, oks, m);
      if flaky {
        UndoAnyway(hits[m], ws[m], j, order[m], ws[m + 1], oks[m]);
      } else {
        NoHits(hits, m);
      }
    }
  }

  /** In any rollback an entry whose route can be removed from the table as it is found stays undone only if its own
      turn was disturbed; one whose route cannot is never undone, unless the pin leaves through the device. */
  lemma RollbackExact(base: HostState, eg: Egress, w: World, j: Journal, hits: seq<bool>, ws: seq<World>,
                      oks: seq<bool>, q: nat)
    requires Accounts(base, eg, w, j) && HitRun(hits, j, UndoOrder(j.entries, 0), ws, oks) && ws[0] == w
    requires q < |oks|
    ensures var i := UndoOrder(j.entries, 0)[q]; i < |j.entries| && Live(j.entries[i])
    ensures var e := j.entries[UndoOrder(j.entries, 0)[q]];
      && (EntryRemovable(w.host.routes, e) && !hits[q] ==> oks[q])
      && (Apart(w, j) && oks[q] ==> EntryRemovable(w.host.routes, e))
  {
    hide Covers, ValidJournal, UndoOutcome, Apart, EntryRemovable, Shrunk;
    var order := UndoOrder(j.entries, 0);
    UndoOrderExact(j.entries, 0);
    assert order[q] in order;
    HitRunIsRun(true, hits, j, order, ws, oks);
    RunAccounts(base, eg, true, j, order, ws, oks, q);
    assert UndoStep(hits[q], j, order, ws, oks, q);
    UndoExact(base, eg, hits[q], ws[q], j, order[q], ws[q + 1], oks[q]);
    RunShrinks(true, j, order, ws, oks, 0, q);
    if EntryRemovable(w.host.routes, j.entries[order[q]]) {
      StaysRemovable(w, ws[q], j.entries[order[q]]);
    }
    if Apart(w, j) {
      FoundAsAtFirst(base, eg, w, j, ws, oks, q);
    }
  }

  lemma FoundAsAtFirst(base: HostState, eg: Egress, w: World, j: Journal, ws: seq<World>, oks: seq<bool>, q: nat)
    requires Accounts(base, eg, w, j) && RollbackRun(true, w, j, ws, oks) && q < |oks| && Apart(w, j)
    requires UndoOrder(j.entries, 0)[q] < |j.entries|
    ensures var e := j.entries[UndoOrder(j.entries, 0)[q]];
      EntryRemovable(ws[q].host.routes, e) <==> EntryRemovable(w.host.routes, e)
  {
    hide Covers, ValidJournal, UndoRun, Apart, ValidRoute, Matches;
    RunLengths(true, j, UndoOrder(j.entries, 0), ws, oks);
    if j.entries[UndoOrder(j.entries, 0)[q]].route.Some? {
      UntouchedBefore(base, eg, true, j, ws, oks, q, q);
    }
  }

  /** So an undisturbed rollback undoes everything exactly if every live route can be removed as it is found. */
  lemma RollbackAll(base: HostState, eg: Egress, w: World, j: Journal, hits: seq<bool>, ws: seq<World>, oks: seq<bool>)
    requires Accounts(base, eg, w, j) && HitRun(hits, j, UndoOrder(j.entries, 0), ws, oks) && ws[0] == w
    ensures Count(hits) == 0 && AllRemovable(w.host.routes, j.entries) ==> AllDone(oks)
    ensures Apart(w, j) && AllDone(oks) ==> AllRemovable(w.host.routes, j.entries)
  {
    hide Accounts, UndoOutcome, Apart, EntryRemovable;
    var order := UndoOrder(j.entries, 0);
    if Count(hits) == 0 && AllRemovable(w.host.routes, j.entries) {
      forall q | 0 <= q < |oks| ensures oks[q] {
        RollbackExact(base, eg, w, j, hits, ws, oks, q);
        NoHits(hits, q);
      }
    }
    if Apart(w, j) && AllDone(oks) {
      forall k | 0 <= k < |j.entries| && Live(j.entries[k]) ensures EntryRemovable(w.host.routes, j.entries[k]) {
        var q := Turn(j.entries, k);
        RollbackExact(base, eg, w, j, hits, ws, oks, q);
      }
    }
  }

  /** The entry was live and its turn was disturbed. */
  ghost predicate HitAt(es: seq<Entry>, hits: seq<bool>, k: nat) {
    exists q :: 0 <= q < |hits| && q < |UndoOrder(es, 0)| && UndoOrder(es, 0)[q] == k && hits[q]
  }

  lemma {:induction false} OrderPrefix(es: seq<Entry>, n: nat)
    requires n <= |es|
    ensures UndoOrder(es, n) <= UndoOrder(es, 0)
  {
    if n > 0 {
      OrderPrefix(es, n - 1);
    }
  }

  lemma {:induction false} LiveFirst(es: seq<Entry>)
    requires es != []
    ensures LiveCount(es) == LiveCount(es[1..]) + if Live(es[0]) then 1 else 0
  {
    if |es| > 1 {
      LiveFirst(es[..|es| - 1]);
      assert es[1..][..|es| - 2] == es[..|es| - 1][1..];
    }
  }

  /** If only disturbed turns leave a live entry, there are no more of those than there were disturbed turns. */
  lemma {:induction false} LiveHits(es: seq<Entry>, left: seq<Entry>, hits: seq<bool>, n: nat)
    requires |left| <= |es| && |hits| == |UndoOrder(es, 0)| && n <= |es|
    requires forall k :: 0 <= k < |left| && Live(left[k]) ==> HitAt(es, hits, k)
    ensures |UndoOrder(es, n)| <= |hits|
    ensures n <= |left| ==> LiveCount(left[n..]) <= Count(hits[..|UndoOrder(es, n)|])
    decreases |es| - n
  {
    OrderPrefix(es, n);
    UndoOrderExact(es, 0);
    if n < |es| {
      LiveHits(es, left, hits, n + 1);
      var m := |UndoOrder(es, n + 1)|;
      OrderPrefix(es, n + 1);
      if n < |left| {
        LiveFirst(left[n..]);
        assert left[n..][1..] == left[n + 1..];
        if Live(left[n]) {
          assert HitAt(es, hits, n);
          var q :| 0 <= q < |hits| && UndoOrder(es, 0)[q] == n && hits[q];
          assert UndoOrder(es, 0)[q] in UndoOrder(es, 0);
        }
        if Live(es[n]) {
          assert hits[..m + 1][..m] == hits[..m];
          if Live(left[n]) {
            var q :| 0 <= q < |hits| && UndoOrder(es, 0)[q] == n && hits[q];
            assert UndoOrder(es, 0)[m] == n;
            assert q == m;
          }
        }
      }
    }
  }

  lemma RunLengths(flaky: bool, j: Journal, order: seq<nat>, ws: seq<World>, oks: seq<bool>)
    requires UndoRun(flaky, j, order, ws, oks)
    ensures |ws| == |order| + 1 && |oks| == |order|
  {
  }

  /** A foreign route at a planned destination, other than a twin, stays there, and its entry cannot be undone. */
  lemma BlockedEntry(base: HostState, eg: Egress, w: World, j: Journal, k: nat)
    requires Accounts(base, eg, w, j) && k < |j.entries| && j.entries[k].route.Some?
    requires var d := j.entries[k].route.value.dest; d in base.routes && !IsTwin(j.plan, d, base.routes[d])
    ensures Live(j.entries[k]) && !EntryRemovable(w.host.routes, j.entries[k])
  {
    hide ValidHeader, ValidStatuses, ValidRoute, DnsOk, IsTwin, ValidPlan, ValidDevice;
    var d, t := j.entries[k].route.value.dest, w.host.routes;
    assert j.entries[k].route == RouteAt(j.plan, j.device, k);
    assert SettledAt(base.routes, t, j.plan, d) || OursAt(base.routes, t, eg, j, d);
    assert t[d] == base.routes[d];
    if Matches(t[d], j.entries[k].route.value) {
      HeaderFacts(j);
      RemovableTwin(base.routes, j.plan, j.device, k, base.routes[d]);
    }
  }

  /** Where the conflict check has passed, a route at a tunnel route's destination is no twin of it. */
  lemma TakenNoTwin(base: HostState, plan: Plan, device: Option<DeviceHandle>, k: nat)
    requires Checked(base, plan) && k >= 2 && RouteAt(plan, device, k).Some?
    requires RouteAt(plan, device, k).value.dest in base.routes
    ensures var d := RouteAt(plan, device, k).value.dest; !IsTwin(plan, d, base.routes[d])
  {
    hide Readable, HasDefault;
    PlannedDistinct(plan, device, 0, k);
  }

  /** A rollback on the way up is clean exactly if no entry's destination was taken. */
  lemma CleanExact(base: HostState, eg: Egress, w: World, j: Journal)
    requires Accounts(base, eg, w, j) && Checked(base, j.plan) && PinReady(base.routes, eg, j.plan)
    requires forall k :: 0 <= k < |j.entries| ==> Live(j.entries[k])
    ensures Apart(w, j) && (AllRemovable(w.host.routes, j.entries) <==> !Taken(base.routes, j.entries))
  {
    hide ValidJournal, Covers, Checked, Removable, IsTwin, Wired;
    PinApart(base, eg, w, j);
    forall k | 0 <= k < |j.entries| && j.entries[k].route.Some?
      ensures EntryRemovable(w.host.routes, j.entries[k]) <==> j.entries[k].route.value.dest !in base.routes
    {
      if j.entries[k].route.value.dest in base.routes {
        OnlyFirstPins(j, k);
        EntryRoute(j, k);
        TakenNoTwin(base, j.plan, j.device, k);
        BlockedEntry(base, eg, w, j, k);
      } else {
        OwnRemovable(base, eg, w, j, k);
      }
    }
    if Taken(base.routes, j.entries) {
      var k :| 0 <= k < |j.entries| && j.entries[k].route.Some? && j.entries[k].route.value.dest in base.routes;
      assert !EntryRemovable(w.host.routes, j.entries[k]);
    }
  }

  lemma EntryRoute(j: Journal, k: nat)
    requires ValidJournal(j) && k < |j.entries|
    ensures j.entries[k].route == RouteAt(j.plan, j.device, k)
  {
  }

  /** What the session has put up as planned can be removed. */
  lemma OwnRemovable(base: HostState, eg: Egress, w: World, j: Journal, k: nat)
    requires Accounts(base, eg, w, j) && k < |j.entries| && j.entries[k].route.Some?
    requires j.entries[k].route.value.dest !in base.routes && Wired(eg, j.plan.EndpointRoute())
    ensures EntryRemovable(w.host.routes, j.entries[k])
  {
    hide ValidHeader, ValidStatuses, ValidRoute, ValidPlan, ValidDevice, DnsOk, DeviceOk, Preimage;
    var r, t := j.entries[k].route.value, w.host.routes;
    EntryRoute(j, k);
    HeaderFacts(j);
    PlannedRouteValid(j.plan, j.device, k);
    if r.dest in t {
      assert SettledAt(base.routes, t, j.plan, r.dest) || OursAt(base.routes, t, eg, j, r.dest);
      var n: nat :| Ours(base.routes, t, eg, j, n, r.dest);
      OwnEntry(j, k, n);
      assert t[r.dest] == r;
    }
  }

  lemma PinApart(base: HostState, eg: Egress, w: World, j: Journal)
    requires Accounts(base, eg, w, j) && Checked(base, j.plan) && PinReady(base.routes, eg, j.plan)
    ensures Apart(w, j)
  {
    hide ValidHeader, ValidStatuses, ValidPlan, DnsOk, Preimage, Readable, HasDefault;
    var pin, t := j.plan.EndpointRoute(), w.host.routes;
    if w.device.Some? && pin.dest in t {
      assert base.routes[V4_DEFAULT].iface != w.device.value.iface;
      assert SettledAt(base.routes, t, j.plan, pin.dest) || OursAt(base.routes, t, eg, j, pin.dest);
      var n: nat :| Ours(base.routes, t, eg, j, n, pin.dest);
      OnlyFirstPins(j, n);
    }
  }

  // ---------- a pin the kernel has put elsewhere ----------

  /** The pin stands where it did not stand before, but not as planned. */
  ghost predicate Stranded(base: HostState, eg: Egress, plan: Plan, w: World) {
    var pin := plan.EndpointRoute();
    && pin.dest in w.host.routes && pin.dest !in base.routes && !Wired(eg, pin)
    && (w.device.Some? ==> w.host.routes[pin.dest].iface != w.device.value.iface)
  }

  /** It is its entry's, the entry is live, and it disagrees with the plan on the interface. */
  lemma StrandedEntry(base: HostState, eg: Egress, w: World, j: Journal)
    requires Accounts(base, eg, w, j) && Stranded(base, eg, j.plan, w)
    ensures |j.entries| > 0 && Live(j.entries[0])
    ensures !Matches(w.host.routes[j.plan.EndpointRoute().dest], j.plan.EndpointRoute())
    ensures !EntryRemovable(w.host.routes, j.entries[0])
  {
    hide ValidHeader, ValidStatuses;
    var pin, t := j.plan.EndpointRoute(), w.host.routes;
    assert SettledAt(base.routes, t, j.plan, pin.dest) || OursAt(base.routes, t, eg, j, pin.dest);
    var n: nat :| Ours(base.routes, t, eg, j, n, pin.dest);
    OnlyFirstPins(j, n);
    assert n == 0 && t[pin.dest] == Realized(eg, pin);
  }

  /** No undo removes it; its own reports failure. */
  lemma UndoStranded(base: HostState, eg: Egress, flaky: bool, w: World, j: Journal, i: nat, w': World, ok: bool)
    requires Accounts(base, eg, w, j) && Stranded(base, eg, j.plan, w) && i < |j.entries|
    requires UndoOutcome(flaky, w, j, i, w', ok)
    ensures Stranded(base, eg, j.plan, w') && (i == 0 ==> !ok)
    ensures At(w'.host.routes, j.plan.EndpointRoute().dest) == At(w.host.routes, j.plan.EndpointRoute().dest)
  {
    hide ValidJournal, Covers, RestoreOutcome, Matches, Wired;
    StrandedEntry(base, eg, w, j);
    UndoShrinks(flaky, w, j, i, w', ok);
    OnlyFirstPins(j, i);
  }

  lemma {:induction false} RunStranded(base: HostState, eg: Egress, flaky: bool, w: World, j: Journal, ws: seq<World>,
                                       oks: seq<bool>, m: nat)
    requires Accounts(base, eg, w, j) && Stranded(base, eg, j.plan, w) && RollbackRun(flaky, w, j, ws, oks) && m < |ws|
    ensures Stranded(base, eg, j.plan, ws[m])
  {
    hide Accounts, Stranded, UndoOutcome;
    if m > 0 {
      var order := UndoOrder(j.entries, 0);
      RunStranded(base, eg, flaky, w, j, ws, oks, m - 1);
      RunAccounts(base, eg, flaky, j, order, ws, oks, m - 1);
      assert UndoStep(flaky, j, order, ws, oks, m - 1);
      UndoStranded(base, eg, flaky, ws[m - 1], j, order[m - 1], ws[m], oks[m - 1]);
    }
  }

  /** The pin had its turn, and it failed. */
  ghost predicate PinFailed(j: Journal, oks: seq<bool>) {
    exists q :: 0 <= q < |oks| && q < |UndoOrder(j.entries, 0)| && UndoOrder(j.entries, 0)[q] == 0 && !oks[q]
  }

  lemma PinFails(base: HostState, eg: Egress, flaky: bool, w: World, j: Journal, ws: seq<World>, oks: seq<bool>)
    requires Accounts(base, eg, w, j) && Stranded(base, eg, j.plan, w) && RollbackRun(flaky, w, j, ws, oks)
    ensures PinFailed(j, oks)
  {
    hide Accounts, Stranded, UndoOutcome;
    var order := UndoOrder(j.entries, 0);
    StrandedEntry(base, eg, w, j);
    var q := Turn(j.entries, 0);
    assert UndoStep(flaky, j, order, ws, oks, q);
    RunAccounts(base, eg, flaky, j, order, ws, oks, q);
    RunStranded(base, eg, flaky, w, j, ws, oks, q);
    UndoStranded(base, eg, flaky, ws[q], j, order[q], ws[q + 1], oks[q]);
  }

  lemma StrandedBare(base: HostState, eg: Egress, plan: Plan, w: World)
    ensures Stranded(base, eg, plan, w) == Stranded(base, eg, plan, Bare(w))
  {
  }

  /** With nothing foreign at a planned destination and the kernel doing as planned, every live route can be removed. */
  lemma SmoothRemovable(base: HostState, eg: Egress, w: World, j: Journal)
    requires Accounts(base, eg, w, j) && Unblocked(base.routes, j.plan) && Wired(eg, j.plan.EndpointRoute())
    ensures AllRemovable(w.host.routes, j.entries)
  {
    hide ValidJournal, RoutesOk, Unblocked, Wired, Removable;
    forall k | 0 <= k < |j.entries| && Live(j.entries[k]) ensures EntryRemovable(w.host.routes, j.entries[k]) {
      if j.entries[k].route.Some? {
        RouteRemovable(base.routes, eg, w.host.routes, j, k);
      }
    }
  }

  // ---------- all of it at once ----------

  /** The run left nothing undone from the third entry on. */
  ghost predicate TunnelsDone(j: Journal, oks: seq<bool>) {
    forall q :: 0 <= q < |oks| && q < |UndoOrder(j.entries, 0)| && UndoOrder(j.entries, 0)[q] >= 2 ==> oks[q]
  }

  ghost predicate AllDone(oks: seq<bool>) { forall q :: 0 <= q < |oks| ==> oks[q] }

  /** The disk plays no part in any of this. */
  lemma SameBare(base: HostState, eg: Egress, flaky: bool, w: World, j: Journal)
    ensures Accounts(base, eg, w, j) == Accounts(base, eg, Bare(w), j)
    ensures PinGuard(base.routes, j.plan, w) == PinGuard(base.routes, j.plan, Bare(w))
    ensures KeepsGuard(base, flaky, w, j) == KeepsGuard(base, flaky, Bare(w), j)
    ensures Stranded(base, eg, j.plan, w) == Stranded(base, eg, j.plan, Bare(w)) && Apart(w, j) == Apart(Bare(w), j)
  {
    hide ValidJournal, Covers, TunnelStands;
  }

  /** What is known of a rollback from the world it finds. */
  lemma RollbackFacts(base: HostState, eg: Egress, flaky: bool, w: World, j: Journal, hits: seq<bool>, ws: seq<World>,
                      oks: seq<bool>)
    requires Accounts(base, eg, w, j) && HitRun(hits, j, UndoOrder(j.entries, 0), ws, oks) && ws[0] == Bare(w)
    requires !flaky ==> Count(hits) == 0
    ensures PinGuard(base.routes, j.plan, w) && (KeepsGuard(base, flaky, w, j) || TunnelsDone(j, oks)) ==>
      Guarded(base.routes, j.plan, ws)
    ensures Stranded(base, eg, j.plan, w) ==> Stranded(base, eg, j.plan, ws[|ws| - 1]) && PinFailed(j, oks)
    ensures !flaky && AllRemovable(w.host.routes, j.entries) ==> AllDone(oks)
    ensures Apart(w, j) && AllDone(oks) ==> AllRemovable(w.host.routes, j.entries)
    ensures ws[|ws| - 1].device == w.device || ws[|ws| - 1].device.None?
  {
    hide Accounts, UndoRun, KeepsGuard, PinGuard, Guarded, Stranded, Apart, AllRemovable;
    var b := Bare(w);
    SameBare(base, eg, flaky, w, j);
    HitRunIsRun(flaky, hits, j, UndoOrder(j.entries, 0), ws, oks);
    RunLengths(flaky, j, UndoOrder(j.entries, 0), ws, oks);
    RunShrinks(flaky, j, UndoOrder(j.entries, 0), ws, oks, 0, |ws| - 1);
    hide RollbackRun;
    if PinGuard(base.routes, j.plan, b) && KeepsGuard(base, flaky, b, j) {
      GuardKept(base, eg, flaky, b, j, ws, oks);
    }
    if PinGuard(base.routes, j.plan, b) && TunnelsDone(j, oks) {
      UndoneGuards(base, eg, flaky, b, j, ws, oks);
    }
    if Stranded(base, eg, j.plan, b) {
      RunStranded(base, eg, flaky, b, j, ws, oks, |ws| - 1);
      PinFails(base, eg, flaky, b, j, ws, oks);
    }
    RollbackAll(base, eg, b, j, hits, ws, oks);
  }

  // ---------- building a run ----------

  /** An undo depends on the journal only through what the rollback leaves alone. */
  lemma SameUndo(flaky: bool, w: World, j: Journal, j0: Journal, i: nat, w': World, ok: bool)
    requires i < |j.entries| && i < |j0.entries| && UndoOutcome(flaky, w, j, i, w', ok)
    requires j.plan == j0.plan && j.device == j0.device && j.dnsBefore == j0.dnsBefore
    requires j.entries[i].kind == j0.entries[i].kind && j.entries[i].route == j0.entries[i].route
    ensures UndoOutcome(flaky, w, j0, i, w', ok) && UndoOutcome(flaky, Bare(w), j0, i, Bare(w'), ok)
  {
  }

  /** The parts of a journal that a rollback leaves alone. */
  ghost predicate SameShape(j: Journal, j0: Journal) {
    && j.plan == j0.plan && j.device == j0.device && j.dnsBefore == j0.dnsBefore && |j.entries| == |j0.entries|
    && forall k :: 0 <= k < |j.entries| ==>
         j.entries[k].kind == j0.entries[k].kind && j.entries[k].route == j0.entries[k].route
  }

  lemma ShapeTrans(a: Journal, b: Journal, c: Journal)
    requires SameShape(a, b) && SameShape(b, c)
    ensures SameShape(a, c) && |a.entries| == |c.entries|
  {
  }

  /** An undo of one journal is an undo of any of the same shape. */
  lemma ShapeUndo(flaky: bool, w: World, j: Journal, j0: Journal, i: nat, w': World, ok: bool)
    requires SameShape(j, j0) && i < |j.entries| && UndoOutcome(flaky, w, j, i, w', ok)
    ensures i < |j0.entries| && UndoOutcome(flaky, w, j0, i, w', ok)
  {
    hide UndoOutcome;
    SameUndo(flaky, w, j, j0, i, w', ok);
  }

  lemma EmptyRun(j: Journal, w: World)
    ensures HitRun([], j, [], [w], []) && Count([]) == 0
  {
  }

  lemma SameRun(hits: seq<bool>, j: Journal, j0: Journal, ws: seq<World>, oks: seq<bool>)
    requires j == j0.(phase := j.phase, updatedAt := j.updatedAt) && HitRun(hits, j, UndoOrder(j.entries, 0), ws, oks)
    ensures HitRun(hits, j0, UndoOrder(j0.entries, 0), ws, oks)
  {
    hide UndoOutcome;
    var order := UndoOrder(j.entries, 0);
    forall m | 0 <= m < |order| ensures UndoStep(hits[m], j0, order, ws, oks, m) {
      assert UndoStep(hits[m], j, order, ws, oks, m);
      SameUndo(hits[m], ws[m], j, j0, order[m], ws[m + 1], oks[m]);
    }
  }

  lemma ExtendRun(hits: seq<bool>, j: Journal, order: seq<nat>, ws: seq<World>, oks: seq<bool>, i: nat, hit: bool,
                  w': World, ok: bool)
    requires HitRun(hits, j, order, ws, oks) && i < |j.entries| && UndoOutcome(hit, ws[|order|], j, i, w', ok)
    ensures HitRun(hits + [hit], j, order + [i], ws + [w'], oks + [ok])
    ensures Count(hits + [hit]) == Count(hits) + if hit then 1 else 0
  {
    hide UndoOutcome;
    assert (hits + [hit])[..|hits|] == hits;
    forall m | 0 <= m < |order + [i]| ensures UndoStep((hits + [hit])[m], j, order + [i], ws + [w'], oks + [ok], m) {
      if m < |order| {
        assert UndoStep(hits[m], j, order, ws, oks, m);
      }
    }
  }
}
