/** Whole lives of a session: a process that connects, dies anywhere, and any number of later processes that try
    to recover, each failing and dying anywhere in turn (internal/tunnel/controller.go). */
module TunnelLifetime {
  import opened Net
  import opened Faults
  import opened TunnelModel
  import opened DarwinNet
  import opened TunnelProtocol
  import opened TunnelRollback
  import opened TunnelController

  // ---------- runs ----------

  lemma {:induction false} RunPrefix(base: HostState, eg: Egress, plan: Plan, ws: seq<World>, k: nat)
    requires Run(base, eg, plan, ws) && k <= |ws|
    ensures Run(base, eg, plan, ws[..k])
  {
    hide Recoverable, Linked;
    if k == |ws| {
      assert ws[..k] == ws;
    } else {
      RunPrefix(base, eg, plan, ws[..|ws| - 1], k);
      assert ws[..|ws| - 1][..k] == ws[..k];
    }
  }

  lemma {:induction false} RunConcat(base: HostState, eg: Egress, plan: Plan, ws: seq<World>, vs: seq<World>)
    requires Run(base, eg, plan, ws) && Run(base, eg, plan, vs)
    requires ws != [] && vs != [] ==> Linked(ws[|ws| - 1], vs[0])
    ensures Run(base, eg, plan, ws + vs)
  {
    hide Recoverable, Linked;
    if vs == [] {
      assert ws + vs == ws;
    } else {
      var n := |vs| - 1;
      RunConcat(base, eg, plan, ws, vs[..n]);
      assert (ws + vs)[..|ws + vs| - 1] == ws + vs[..n];
    }
  }

  predicate NotForeign(disk: Option<Journal>) { disk.Some? ==> disk.value.phase != ForeignConflict }

  /** A run that does not start in a foreign conflict never meets one. */
  lemma {:induction false} NeverForeign(base: HostState, eg: Egress, plan: Plan, ws: seq<World>, k: nat)
    requires Run(base, eg, plan, ws) && k < |ws| && NotForeign(ws[0].disk)
    ensures NotForeign(ws[k].disk)
  {
    hide Recoverable, Run, WriteAhead, Behind, LiveCount;
    if k > 0 {
      NeverForeign(base, eg, plan, ws, k - 1);
      RunAt(base, eg, plan, ws, k - 1);
    }
  }

  /** The phases on disk follow the transition table in every run from Connect on, over crashes, reloads and writes
      that fail after taking effect; time on disk moves strictly forward whatever the clock does. */
  lemma PhaseMachine(base: HostState, eg: Egress, plan: Plan, ws: seq<World>, k: nat)
    requires Run(base, eg, plan, ws) && k + 1 < |ws| && NotForeign(ws[0].disk)
    requires ws[k].disk.Some? && ws[k + 1].disk.Some? && ws[k].disk != ws[k + 1].disk
    ensures var p, p' := ws[k].disk.value.phase, ws[k + 1].disk.value.phase; p == p' || AllowedTransition(p, p')
    ensures ws[k].disk.value.updatedAt < ws[k + 1].disk.value.updatedAt
    ensures Behind(ws[k].disk.value, ws[k + 1].disk.value)
  {
    hide Recoverable, Run, WriteAhead, Behind, LiveCount;
    NeverForeign(base, eg, plan, ws, k);
    RunAt(base, eg, plan, ws, k);
  }

  /** While a journal stays on disk its entries only advance; entry by entry, and over any stretch of a run. */
  lemma {:induction false} StatusesAdvance(base: HostState, eg: Egress, plan: Plan, ws: seq<World>, k: nat, m: nat)
    requires Run(base, eg, plan, ws) && k <= m < |ws|
    requires forall i :: k <= i <= m ==> ws[i].disk.Some?
    ensures Behind(ws[k].disk.value, ws[m].disk.value)
    decreases m - k
  {
    hide Recoverable, Run, WriteAhead, Behind, LiveCount;
    if k == m {
      BehindSelf(ws[k].disk.value);
    } else {
      StatusesAdvance(base, eg, plan, ws, k + 1, m);
      RunAt(base, eg, plan, ws, k);
      BehindSelf(ws[k].disk.value);
      assert Behind(ws[k].disk.value, ws[k + 1].disk.value);
      BehindTrans(ws[k].disk.value, ws[k + 1].disk.value, ws[m].disk.value);
    }
  }

  /** A journal leaves the disk only when none of its entries is live. */
  lemma {:induction false} DeletedOnlyWhenEmpty(base: HostState, eg: Egress, plan: Plan, ws: seq<World>, k: nat)
    requires Run(base, eg, plan, ws) && k + 1 < |ws| && ws[k].disk.Some? && ws[k + 1].disk.None?
    ensures forall i :: 0 <= i < |ws[k].disk.value.entries| ==> !Live(ws[k].disk.value.entries[i])
  {
    hide Recoverable, Run, WriteAhead, Behind;
    RunAt(base, eg, plan, ws, k);
    LiveCountZero(ws[k].disk.value.entries);
  }

  // ---------- processes ----------

  /** How a process fares: the fates of its commands, its clock, how often it tries to disconnect, the step at which it
      dies, if it does not die after the last, and which routes through its device survive it. */
  datatype Fortune = Fortune(fates: nat -> Fate, clock: nat -> int, attempts: nat, step: nat, kept: set<Prefix>)

  /** What is left of a world when a process dies in it. */
  function Remains(w: World, kept: set<Prefix>): World {
    var t := w.host.routes;
    World(HostState(map d | d in t && (w.device.None? || t[d].iface != w.device.value.iface || d in kept) :: t[d],
                    w.host.dns), None, w.disk)
  }

  lemma RemainsCrashed(w: World, kept: set<Prefix>)
    ensures Crashed(w, Remains(w, kept))
  {
  }

  /** And whatever the death of a process may leave is one of these. */
  lemma RemainsAll(w: World, w': World) returns (kept: set<Prefix>)
    requires Crashed(w, w')
    ensures w' == Remains(w, kept)
  {
    kept := w'.host.routes.Keys;
    var t, t' := w.host.routes, w'.host.routes;
    forall d ensures At(t', d) == At(Remains(w, kept).host.routes, d) {
      assert At(t', d) == At(t, d) || (d !in t' && d in t);
    }
    assert t' == Remains(w, kept).host.routes;
  }

  /** The step at which it dies. */
  function LastStep(ws: seq<World>, step: nat): (k: nat)
    requires ws != []
    ensures k < |ws|
  {
    if step < |ws| then step else |ws| - 1
  }

  /** The world a dying process leaves: that of the step it had reached, less its device. What a crash of the machine
      may bring back for the journal, `maybe`, is what it was at that step. */
  method Die(c: Controller, before: seq<World>, step: nat, kept: set<Prefix>)
    returns (w: World, maybe: set<Option<Journal>>, after: seq<World>)
    requires c.Inv() && Run(c.base, c.os.egress, c.plan, before)
    requires before != [] ==> Linked(before[|before| - 1], c.trace[0])
    ensures Run(c.base, c.os.egress, c.plan, after) && before <= after && after != [] && after[|after| - 1] == w
    ensures |after| > |before| && after[|before|] == c.trace[0]
    ensures w == Remains(c.trace[LastStep(c.trace, step)], kept) && maybe == c.surfaced[LastStep(c.trace, step)]
    ensures w.device.None? && w.disk in maybe && AllRecoverable(c.base, c.os.egress, c.plan, w, maybe)
  {
    hide Recoverable, Linked, Run, Guarded, AllRecoverable;
    var k := LastStep(c.trace, step);
    var last := c.trace[k];
    maybe := c.surfaced[k];
    w := Remains(last, kept);
    RemainsCrashed(last, kept);
    RunPrefix(c.base, c.os.egress, c.plan, c.trace, k + 1);
    RunAt(c.base, c.os.egress, c.plan, c.trace, k);
    CrashKeeps(c.base, c.os.egress, c.plan, last, w);
    CrashSurface(c.base, c.os.egress, c.plan, last, maybe, w);
    var lived := c.trace[..k + 1];
    Alone(c.base, c.os.egress, c.plan, w);
    RunConcat(c.base, c.os.egress, c.plan, lived, [w]);
    RunConcat(c.base, c.os.egress, c.plan, before, lived + [w]);
    after := before + (lived + [w]);
  }

  lemma NoWorlds(base: HostState, eg: Egress, plan: Plan)
    ensures Run(base, eg, plan, [])
  {
  }

  lemma LinkedSelf(w: World)
    ensures Linked(w, w)
  {
  }

  /** It tries at least once, and no command fails. */
  ghost predicate Calm(f: Fortune) { f.attempts > 0 && AllWork(f.fates) }

  /** The session owns nothing, and the host is as it was, but for twins. */
  ghost predicate GivenBack(base: HostState, plan: Plan, w: World) {
    w.disk.None? && w.device.None? && w.host.dns == base.dns && Settled(base.routes, w.host.routes, plan)
  }

  /** A process that tries to recover the session: it may fail anywhere, but if it does not, it succeeds. */
  method Recover(w: World, maybe: set<Option<Journal>>, eg: Egress, f: Fortune, base: HostState, plan: Plan,
                 before: seq<World>)
    returns (w': World, maybe': set<Option<Journal>>, after: seq<World>, trace: seq<World>)
    requires Run(base, eg, plan, before) && before != [] && before[|before| - 1] == w && w.device.None?
    requires AllRecoverable(base, eg, plan, w, maybe) && w.disk in maybe && NotForeign(w.disk)
    ensures Run(base, eg, plan, after) && before <= after && after[|after| - 1] == w' && w'.device.None?
    ensures AllRecoverable(base, eg, plan, w', maybe') && w'.disk in maybe'
    ensures Run(base, eg, plan, trace) && trace != [] && trace[0] == w
    ensures w' == Remains(trace[LastStep(trace, f.step)], f.kept)
    ensures Calm(f) && Unblocked(base.routes, plan) && Wired(eg, plan.EndpointRoute()) ==>
      GivenBack(base, plan, trace[|trace| - 1])
  {
    hide Recoverable, Linked, Run, Guarded, Settled, Behind, LiveCount, AllRecoverable, KeepsGuard, Stranded, Verdict,
      Owed, Spared, UndoOrder, Unblocked, Wired, AllWork, Remains;
    LinkedSelf(w);
    AmongSurfaced(base, eg, plan, w, maybe);
    var runner := new Runner(f.fates, f.clock);
    var os := new Host(w.host.routes, w.host.dns, eg, runner);
    var next: DeviceHandle := *;
    var c := new Controller(os, None, w.disk, maybe, next, base, plan);
    for i := 0 to f.attempts
      invariant c.Inv() && c.trace[0] == w && (i == 0 ==> c.disk == w.disk)
      invariant i > 0 && Calm(f) && c.Smooth() ==> c.disk.None?
    {
      if c.disk.Some? {
        c.NowRecoverable();
        OwnerOf(base, eg, plan, c.Now());
      }
      var ok, errors := c.Disconnect(plan.sessionId, plan.ownerUid);
    }
    if c.disk.None? {
      c.NowRecoverable();
      NothingLeft(base, eg, plan, c.Now());
    }
    w', maybe', after := Die(c, before, f.step, f.kept);
    trace := c.trace;
  }

  /** The tunnel was up at one of these. */
  ghost predicate WasUp(base: HostState, plan: Plan, ws: seq<World>) {
    exists k :: 0 <= k < |ws| && Established(base, ws[k], plan)
  }

  lemma UpTo(base: HostState, plan: Plan, ws: seq<World>, ws': seq<World>)
    requires ws != [] && ws <= ws'
    ensures Established(base, ws[|ws| - 1], plan) ==> WasUp(base, plan, ws')
  {
    hide Established;
    assert ws'[|ws| - 1] == ws[|ws| - 1];
  }

  /** The lives of processes, one after the other: each is a run, and each but the first finds what is left where the
      one before it died. */
  ghost predicate Lives(base: HostState, eg: Egress, plan: Plan, fortunes: seq<Fortune>, processes: seq<seq<World>>)
    requires |processes| <= |fortunes|
  {
    && (forall i :: 0 <= i < |processes| ==> processes[i] != [] && Run(base, eg, plan, processes[i]))
    && forall i :: 0 <= i < |processes| - 1 ==> processes[i + 1][0] == Rest(processes[i], fortunes[i])
  }

  /** What a process leaves. */
  function Rest(ws: seq<World>, f: Fortune): World
    requires ws != []
  {
    Remains(ws[LastStep(ws, f.step)], f.kept)
  }

  lemma NextLife(base: HostState, eg: Egress, plan: Plan, fortunes: seq<Fortune>, processes: seq<seq<World>>,
                 trace: seq<World>)
    requires |processes| < |fortunes| && Lives(base, eg, plan, fortunes, processes) && processes != []
    requires trace != [] && Run(base, eg, plan, trace)
    requires trace[0] == Rest(processes[|processes| - 1], fortunes[|processes| - 1])
    ensures Lives(base, eg, plan, fortunes, processes + [trace])
  {
    hide Run, Rest;
    var all := processes + [trace];
    forall i | 0 <= i < |all| - 1 ensures all[i + 1][0] == Rest(all[i], fortunes[i]) {
      assert i < |processes| - 1 ==> processes[i + 1][0] == Rest(processes[i], fortunes[i]);
    }
  }

  /** Lives of a session: the first process connects, each later one tries to recover, and each fails anywhere and dies
      anywhere, as its fortune has it. Whatever happened before, a later process in which no command fails gives back
      the pre-image. */
  method Life(base: HostState, eg: Egress, plan: Plan, next: DeviceHandle, now: int, verified: bool,
              fortunes: seq<Fortune>)
    returns (processes: seq<seq<World>>, run: seq<World>, last: World)
    requires fortunes != []
    ensures |processes| == |fortunes| && Lives(base, eg, plan, fortunes, processes)
    ensures processes[0][0] == World(base, None, None)
    // All of it together is a run.
    ensures Run(base, eg, plan, run) && run != [] && run[0] == World(base, None, None) && run[|run| - 1] == last
    ensures last == Rest(processes[|fortunes| - 1], fortunes[|fortunes| - 1])
    ensures AllWork(fortunes[0].fates) && now != 0 && verified && Favourable(base, eg, plan, next) ==>
      WasUp(base, plan, processes[0])
    // No process in between lost the way back.
    ensures Unblocked(base.routes, plan) && Wired(eg, plan.EndpointRoute()) ==>
      forall i :: 1 <= i < |fortunes| && Calm(fortunes[i]) ==>
        GivenBack(base, plan, processes[i][|processes[i]| - 1])
    ensures Unblocked(base.routes, plan) && Wired(eg, plan.EndpointRoute()) && Twinless(base.routes, plan) ==>
      forall i :: 1 <= i < |fortunes| && Calm(fortunes[i]) ==>
        processes[i][|processes[i]| - 1] == World(base, None, None)
  {
    hide Recoverable, Linked, Run, Settled, Unblocked, Wired, Twinless, Favourable, AllRecoverable, Lives, WasUp,
      GivenBack, Calm, Remains, AllWork, Crashed;
    var start := World(base, None, None);
    var maybe, first;
    last, maybe, run, first := ConnectAndDie(base, eg, fortunes[0], plan, next, now, verified);
    processes := [first];
    OneLife(base, eg, plan, fortunes, first);
    for i := 1 to |fortunes|
      invariant Run(base, eg, plan, run) && run != [] && run[0] == start && run[|run| - 1] == last && last.device.None?
      invariant AllRecoverable(base, eg, plan, last, maybe) && last.disk in maybe
      invariant |processes| == i && Lives(base, eg, plan, fortunes, processes) && processes[0] == first
      invariant processes[i - 1] != [] && last == Rest(processes[i - 1], fortunes[i - 1])
      invariant Unblocked(base.routes, plan) && Wired(eg, plan.EndpointRoute()) ==>
        forall k :: 1 <= k < i && Calm(fortunes[k]) ==>
          processes[k] != [] && GivenBack(base, plan, processes[k][|processes[k]| - 1])
    {
      NeverForeign(base, eg, plan, run, |run| - 1);
      var trace;
      last, maybe, run, trace := Recover(last, maybe, eg, fortunes[i], base, plan, run);
      NextLife(base, eg, plan, fortunes, processes, trace);
      processes := processes + [trace];
    }
    NoneEmpty(base, eg, plan, fortunes, processes);
    if Unblocked(base.routes, plan) && Wired(eg, plan.EndpointRoute()) && Twinless(base.routes, plan) {
      forall i | 1 <= i < |fortunes| && Calm(fortunes[i])
        ensures processes[i][|processes[i]| - 1] == World(base, None, None)
      {
        BackToStart(base, plan, processes[i][|processes[i]| - 1]);
      }
    }
  }

  lemma BackToStart(base: HostState, plan: Plan, w: World)
    requires GivenBack(base, plan, w) && Twinless(base.routes, plan)
    ensures w == World(base, None, None)
  {
    SettledTwinless(base.routes, w.host.routes, plan);
  }

  lemma NoneEmpty(base: HostState, eg: Egress, plan: Plan, fortunes: seq<Fortune>, processes: seq<seq<World>>)
    requires |processes| <= |fortunes| && Lives(base, eg, plan, fortunes, processes)
    ensures forall i :: 0 <= i < |processes| ==> processes[i] != []
  {
  }

  lemma OneLife(base: HostState, eg: Egress, plan: Plan, fortunes: seq<Fortune>, trace: seq<World>)
    requires fortunes != [] && trace != [] && Run(base, eg, plan, trace)
    ensures Lives(base, eg, plan, fortunes, [trace])
  {
    hide Run;
  }

  /** The first of them: it connects, disconnects as often as it does, and dies somewhere on the way. */
  method ConnectAndDie(base: HostState, eg: Egress, f: Fortune, plan: Plan, next: DeviceHandle, now: int,
                       verified: bool)
    returns (last: World, maybe: set<Option<Journal>>, run: seq<World>, trace: seq<World>)
    ensures Run(base, eg, plan, run) && run != [] && run[0] == World(base, None, None) && run[|run| - 1] == last
    ensures last.device.None? && AllRecoverable(base, eg, plan, last, maybe) && last.disk in maybe
    ensures trace != [] && trace[0] == World(base, None, None) && Run(base, eg, plan, trace) && last == Rest(trace, f)
    ensures AllWork(f.fates) && now != 0 && verified && Favourable(base, eg, plan, next) ==> WasUp(base, plan, trace)
  {
    hide Recoverable, Linked, Run, Guarded, Behind, LiveCount, Established, Favourable, AllRecoverable, KeepsGuard,
      Stranded, Settled, Verdict, Startable, WasUp, Sticks, Controller.LeftBehind, Controller.Recouped, Owed, Spared,
      UndoOrder, AllWork, Remains;
    var start := World(base, None, None);
    Untouched(base, eg, plan);
    var runner := new Runner(f.fates, f.clock);
    var c := FirstProcessWith(base, eg, runner, plan, next);
    if Favourable(base, eg, plan, next) {
      FavourableStart(base, eg, plan, next);
    }
    var r := c.Connect(plan, now, verified);
    ghost var up := c.trace;
    Attempts(c, plan, f.attempts);
    Alone(base, eg, plan, start);
    LinkedSelf(start);
    last, maybe, run := Die(c, [start], f.step, f.kept);
    trace := c.trace;
    UpTo(base, plan, up, trace);
  }

  method Attempts(c: Controller, plan: Plan, attempts: nat)
    requires c.Inv() && c.plan == plan
    modifies c, c.os, c.os.runner
    ensures c.Inv() && old(c.trace) <= c.trace
  {
    hide Recoverable, Run, Guarded, Behind, LiveCount, AllRecoverable, KeepsGuard, Stranded, Settled, Verdict, Owed,
      Spared, UndoOrder;
    for i := 0 to attempts
      invariant c.Inv() && old(c.trace) <= c.trace
    {
      var ok, errors := c.Disconnect(plan.sessionId, plan.ownerUid);
    }
  }

  /** A process on an untouched host. */
  method FirstProcess(base: HostState, eg: Egress, fates: nat -> Fate, plan: Plan) returns (c: Controller)
    ensures fresh(c) && fresh(c.os) && fresh(c.os.runner) && c.Inv() && c.os.runner.fates == fates
    ensures c.os.egress == eg && c.base == base && c.plan == plan && c.os.runner.failed == 0
    ensures c.device.None? && c.disk.None? && c.guarded && c.Now().host == base && c.trace[0] == World(base, None, None)
  {
    hide Recoverable;
    var next: DeviceHandle := *;
    var clock: nat -> int := *;
    var runner := new Runner(fates, clock);
    c := FirstProcessWith(base, eg, runner, plan, next);
  }

  /** The same with the interface the kernel hands out next. */
  method FirstProcessWith(base: HostState, eg: Egress, runner: Runner, plan: Plan, next: DeviceHandle)
    returns (c: Controller)
    ensures fresh(c) && fresh(c.os) && c.os.runner == runner && c.Inv()
    ensures c.os.egress == eg && c.base == base && c.plan == plan && c.acts == []
    ensures c.device.None? && c.disk.None? && c.guarded && c.Now().host == base && c.trace[0] == World(base, None, None)
    ensures c.next == next
  {
    hide Recoverable, PinGuard;
    Untouched(base, eg, plan);
    OnlySurface(base, eg, plan, World(base, None, None), {None});
    var os := new Host(base.routes, base.dns, eg, runner);
    c := new Controller(os, None, None, {None}, next, base, plan);
  }

  lemma Untouched(base: HostState, eg: Egress, plan: Plan)
    ensures Recoverable(base, eg, plan, World(base, None, None)) && PinGuard(base.routes, plan, World(base, None, None))
  {
  }

  /** What the journal on disk says of its owner. */
  lemma OwnerOf(base: HostState, eg: Egress, plan: Plan, w: World)
    requires Recoverable(base, eg, plan, w) && w.disk.Some?
    ensures w.disk.value.ownerUid == plan.ownerUid && ValidSessionID(plan.sessionId) && plan.ownerUid >= 0
  {
  }

  lemma NothingLeft(base: HostState, eg: Egress, plan: Plan, w: World)
    requires Recoverable(base, eg, plan, w) && w.disk.None?
    ensures w.device.None? && w.host.dns == base.dns && Settled(base.routes, w.host.routes, plan)
  {
  }

  /** One failure-free Disconnect ends the session. */
  method RecoverAtLast(w: World, maybe: set<Option<Journal>>, eg: Egress, base: HostState, plan: Plan)
    returns (w': World, worlds: seq<World>)
    requires AllRecoverable(base, eg, plan, w, maybe) && w.disk in maybe && w.device.None? && NotForeign(w.disk)
    ensures Run(base, eg, plan, worlds) && worlds != [] && worlds[0] == w && worlds[|worlds| - 1] == w'
    ensures Unblocked(base.routes, plan) && Wired(eg, plan.EndpointRoute()) ==> GivenBack(base, plan, w')
  {
    hide Recoverable, Linked, Run, Guarded, Settled, Behind, LiveCount, Unblocked, Wired, AllRecoverable, KeepsGuard,
      Stranded, Verdict;
    AmongSurfaced(base, eg, plan, w, maybe);
    if w.disk.Some? {
      OwnerOf(base, eg, plan, w);
    }
    var clock: nat -> int := *;
    var runner := new Runner(k => Works, clock);
    var os := new Host(w.host.routes, w.host.dns, eg, runner);
    var next: DeviceHandle := *;
    var c := new Controller(os, None, w.disk, maybe, next, base, plan);
    var ok, errors := c.Disconnect(plan.sessionId, plan.ownerUid);
    w', worlds := c.Now(), c.trace;
    if w.disk.None? {
      RunAt(base, eg, plan, c.trace, |c.trace| - 1);
      NothingLeft(base, eg, plan, w');
    }
  }

  lemma AmongSurfaced(base: HostState, eg: Egress, plan: Plan, w: World, maybe: set<Option<Journal>>)
    requires AllRecoverable(base, eg, plan, w, maybe) && w.disk in maybe
    ensures Recoverable(base, eg, plan, w)
  {
    hide Recoverable;
    assert w.(disk := w.disk) == w;
  }

  /** The machine itself goes down, at any step of a process: whichever journal comes back, the last durable one or
      one whose write was not yet durable, it accounts for the host as that step left it, and one undisturbed
      Disconnect from it ends the session. */
  method PowerLoss(c: Controller, base: HostState, plan: Plan, step: nat, kept: set<Prefix>, back: Option<Journal>)
    returns (w: World, worlds: seq<World>)
    requires c.Inv() && c.base == base && c.plan == plan
    requires step < |c.trace| && back in c.surfaced[step] && NotForeign(back)
    ensures worlds != [] && worlds[0] == Remains(c.trace[step], kept).(disk := back) && worlds[|worlds| - 1] == w
    ensures Run(base, c.os.egress, plan, worlds)
    ensures Unblocked(base.routes, plan) && Wired(c.os.egress, plan.EndpointRoute()) ==> GivenBack(base, plan, w)
  {
    hide Recoverable, Run, Guarded, Settled, Unblocked, Wired, Remains;
    var last, maybe, run := DieAlone(c, step, kept);
    w := last.(disk := back);
    OnlySurface(base, c.os.egress, plan, w, {back});
    w, worlds := RecoverAtLast(w, {back}, c.os.egress, base, plan);
  }

  method DieAlone(c: Controller, step: nat, kept: set<Prefix>)
    returns (w: World, maybe: set<Option<Journal>>, after: seq<World>)
    requires c.Inv()
    ensures w.device.None? && w.disk in maybe && AllRecoverable(c.base, c.os.egress, c.plan, w, maybe)
    ensures w == Remains(c.trace[LastStep(c.trace, step)], kept) && maybe == c.surfaced[LastStep(c.trace, step)]
    ensures Run(c.base, c.os.egress, c.plan, after) && after != [] && after[0] == c.trace[0] && after[|after| - 1] == w
  {
    hide Recoverable, Run, Guarded, AllRecoverable, Remains;
    NoWorlds(c.base, c.os.egress, c.plan);
    w, maybe, after := Die(c, [], step, kept);
  }

  // ---------- what the conditions are for ----------

  /** In every world of every run, whatever stands that did not stand before is named by a live entry on disk. */
  lemma AlwaysCovered(base: HostState, eg: Egress, plan: Plan, ws: seq<World>, k: nat, d: Prefix)
    requires Run(base, eg, plan, ws) && k < |ws|
    ensures d in ws[k].host.routes && At(ws[k].host.routes, d) != At(base.routes, d) ==>
      ws[k].disk.Some? && NamesLive(ws[k].disk.value, d)
    ensures ws[k].host.dns != base.dns ==> ws[k].disk.Some? && DnsLive(ws[k].disk.value)
    ensures ws[k].device.Some? ==>
      ws[k].disk.Some? && |ws[k].disk.value.entries| > 1 && Live(ws[k].disk.value.entries[1])
  {
    hide Recoverable, Run, Linked;
    RunAt(base, eg, plan, ws, k);
    Coverage(base, eg, plan, ws[k]);
  }

  /** The pin added through a gateway that the kernel reaches over another interface can never be removed again:
      once added, it is removable exactly if the kernel placed it where it was planned. */
  lemma StrandedPin(eg: Egress, t: Table, r: Route, flaky: bool, t': Table, ok: bool)
    requires ValidRoute(r) && Expressible(r) && Reachable(eg, r) && r.dest !in t && ValidRoute(Realized(eg, r))
    requires RemoveOutcome(flaky, t[r.dest := Realized(eg, r)], r, t', ok)
    ensures AddOutcome(eg, true, t, r, t[r.dest := Realized(eg, r)], false)
    ensures Removable(t[r.dest := Realized(eg, r)], r) <==> Wired(eg, r)
    ensures !Wired(eg, r) ==> t' == t[r.dest := Realized(eg, r)] && !ok
  {
    if !Wired(eg, r) {
      assert !Matches(Realized(eg, r), r);
    }
  }

  /** In every world of every run, every journal that a crash may bring back covers the host. */
  lemma SurfacedCover(base: HostState, eg: Egress, plan: Plan, w: World, maybe: set<Option<Journal>>, j: Journal)
    requires AllRecoverable(base, eg, plan, w, maybe) && Some(j) in maybe
    ensures ValidJournal(j) && j.plan == plan && Covers(base, eg, w.host, w.device, j)
  {
    hide ValidJournal, Covers;
    assert Recoverable(base, eg, plan, w.(disk := Some(j)));
  }
}
