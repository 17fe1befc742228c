/** The journaled transaction itself: Connect, Disconnect and the rollback they share
    (internal/tunnel/controller.go). One `Controller` is one process working for one session. */
module TunnelController {
  import opened Net
  import opened Faults
  import opened TunnelModel
  import opened DarwinNet
  import opened TunnelProtocol
  import opened TunnelRollback

  datatype RollbackError =
    | PersistDisconnecting | CannotRollBack | UndoFailed(index: nat) | PersistFailed(index: nat)
    | PersistRollbackRequired | PersistDisconnected | DeleteJournal

  /** The journal, if there is one, is the requester's and not in a foreign conflict. */
  predicate Answerable(disk: Option<Journal>, ownerUid: int) {
    disk.Some? ==> disk.value.ownerUid == ownerUid && disk.value.phase != ForeignConflict
  }

  datatype ConnectResult = Refused | Failed(errors: seq<RollbackError>) | Up

  /** The clock's time if it is later than the previous one, and otherwise the next there is. */
  function NextTime(previous: int, now: int): (t: int)
    ensures t > previous && t >= now
    ensures t == now || t == previous + 1
    ensures t == now <==> now > previous
  {
    if now <= previous then previous + 1 else now
  }

  /** Which undos failed is what the errors say. */
  ghost predicate Matched(order: seq<nat>, oks: seq<bool>, errors: seq<RollbackError>) {
    |oks| == |order| && forall q :: 0 <= q < |oks| ==> (oks[q] <==> UndoFailed(order[q]) !in errors)
  }

  ghost predicate Tallied(j: Journal, oks: seq<bool>, errors: seq<RollbackError>) {
    Matched(UndoOrder(j.entries, 0), oks, errors)
  }

  /** No tunnel route was left behind. */
  ghost predicate TunnelUndone(errors: seq<RollbackError>) { forall k :: k >= 2 ==> UndoFailed(k) !in errors }

  /** An undo that succeeded and was written is on disk. */
  ghost predicate WrittenOff(disk: Journal, was: Journal, k: nat, errors: seq<RollbackError>) {
    k < |was.entries| && Live(was.entries[k]) && UndoFailed(k) !in errors && PersistFailed(k) !in errors ==>
      k < |disk.entries| && !Live(disk.entries[k])
  }

  /** How many writes of the rollback itself failed. */
  function Charge(errors: seq<RollbackError>): nat {
    (if PersistDisconnecting in errors then 1 else 0) + (if PersistRollbackRequired in errors then 1 else 0)
    + (if PersistDisconnected in errors then 1 else 0) + if DeleteJournal in errors then 1 else 0
  }

  lemma ChargeFinal(errors: seq<RollbackError>, all: seq<RollbackError>)
    requires || all == errors || all == errors + [PersistRollbackRequired]
             || (errors == [] && (all == [PersistDisconnected] || all == [DeleteJournal]))
    ensures Charge(all) <= Charge(errors) + if all == errors then 0 else 1
    ensures Charge(all) == 0 ==> all == errors
  {
  }

  /** What is still live on disk could not be undone or written. */
  ghost predicate Owed(disk: Journal, errors: seq<RollbackError>) {
    forall k :: 0 <= k < |disk.entries| && Live(disk.entries[k]) ==>
      UndoFailed(k) in errors || PersistFailed(k) in errors
  }

  /** A write fails only in a turn in which a command failed. */
  ghost predicate Charged(order: seq<nat>, hits: seq<bool>, errors: seq<RollbackError>) {
    |hits| == |order| && forall q :: 0 <= q < |hits| && PersistFailed(order[q]) in errors ==> hits[q]
  }

  /** The entries of the journal that rollback starts with that are live on disk are live in memory. */
  ghost predicate NoneRevived(disk: Journal, was: Journal) {
    && |disk.entries| <= |was.entries|
    && forall k :: 0 <= k < |disk.entries| && Live(disk.entries[k]) ==> Live(was.entries[k])
  }

  /** If every live entry's route could be removed, no more are live on disk than commands have failed. */
  ghost predicate Spared(disk: Journal, t: Table, was: seq<Entry>, failures: int) {
    AllRemovable(t, was) ==> LiveCount(disk.entries) <= failures
  }

  lemma BehindRevivesNone(was: Journal, disk: Journal)
    requires Behind(was, disk) && |disk.entries| <= |was.entries|
    ensures NoneRevived(disk, was)
  {
    forall k | 0 <= k < |disk.entries| ensures Advances(was.entries[k], disk.entries[k]) {
    }
  }

  lemma OwedAll(disk: Journal, was: Journal, errors: seq<RollbackError>)
    requires NoneRevived(disk, was) && forall k :: 0 <= k < |was.entries| ==> WrittenOff(disk, was, k, errors)
    ensures Owed(disk, errors)
  {
    forall k | 0 <= k < |disk.entries| && Live(disk.entries[k])
      ensures UndoFailed(k) in errors || PersistFailed(k) in errors
    {
      assert WrittenOff(disk, was, k, errors);
    }
  }

  /** Each failed command leaves at most one entry live on disk, if all of them can be undone. */
  lemma EachFailureOne(base: HostState, eg: Egress, w: World, j: Journal, hits: seq<bool>, ws: seq<World>,
                       oks: seq<bool>, errors: seq<RollbackError>, disk: Journal)
    requires Accounts(base, eg, w, j) && HitRun(hits, j, UndoOrder(j.entries, 0), ws, oks) && ws[0] == Bare(w)
    requires Tallied(j, oks, errors) && Charged(UndoOrder(j.entries, 0), hits, errors)
    requires Owed(disk, errors) && NoneRevived(disk, j) && AllRemovable(w.host.routes, j.entries)
    ensures LiveCount(disk.entries) <= Count(hits)
  {
    hide Accounts, HitRun, EntryRemovable, Apart;
    var order := UndoOrder(j.entries, 0);
    SameBare(base, eg, true, w, j);
    forall k | 0 <= k < |disk.entries| && Live(disk.entries[k]) ensures HitAt(j.entries, hits, k) {
      var q := Turn(j.entries, k);
      RollbackExact(base, eg, Bare(w), j, hits, ws, oks, q);
      assert oks[q] <==> UndoFailed(order[q]) !in errors;
      assert hits[q];
    }
    LiveHits(j.entries, disk.entries, hits, 0);
    assert disk.entries[0..] == disk.entries && hits[..|order|] == hits;
  }

  lemma RollableStep(disk: Phase, mem: Phase)
    requires Rollable(disk, mem) && Undoing(mem)
    ensures PhaseStep(disk, mem) && Rollable(mem, mem)
  {
  }

  lemma StillWrittenOff(disk: Journal, disk': Journal, was: Journal, k: nat, undone: seq<RollbackError>,
                        errors: seq<RollbackError>)
    requires WrittenOff(disk, was, k, undone) && Behind(disk, disk')
    requires UndoFailed(k) in errors <==> UndoFailed(k) in undone
    requires PersistFailed(k) in errors <==> PersistFailed(k) in undone
    ensures WrittenOff(disk', was, k, errors)
  {
    KeptLonger(disk, disk');
  }

  /** The phase stays or moves as the table allows. */
  predicate OnTable(p: Phase, p': Phase) { p == p' || AllowedTransition(p, p') }

  lemma SelfShape(j: Journal)
    ensures SameShape(j, j)
  {
  }

  lemma ShapeRoutes(j: Journal, j0: Journal)
    requires SameShape(j, j0)
    ensures |j.entries| == |j0.entries|
    ensures forall k :: 0 <= k < |j.entries| ==> j.entries[k].route == j0.entries[k].route
  {
  }

  lemma OrderEnds(es: seq<Entry>)
    ensures UndoOrder(es, |es|) == [] && AllDone([])
  {
  }

  lemma OrderStep(es: seq<Entry>, n: nat)
    requires n < |es|
    ensures Live(es[n]) ==> UndoOrder(es, n) == UndoOrder(es, n + 1) + [n]
    ensures !Live(es[n]) ==> UndoOrder(es, n) == UndoOrder(es, n + 1)
  {
    assert UndoOrder(es, n + 1) + [] == UndoOrder(es, n + 1);
  }

  /** All positions, last first. */
  function Downwards(n: nat): seq<nat> { seq(n, i requires 0 <= i < n => n - 1 - i) }

  lemma {:induction false} AllInOrder(es: seq<Entry>, n: nat)
    requires n <= |es| && forall k :: 0 <= k < |es| ==> Live(es[k])
    ensures UndoOrder(es, n) == Downwards(|es|)[..|es| - n]
    ensures n == 0 ==> UndoOrder(es, n) == Downwards(|es|)
    decreases |es| - n
  {
    if n < |es| {
      AllInOrder(es, n + 1);
    }
  }

  lemma ExtendMatch(start: seq<Entry>, index: nat, oks: seq<bool>, ok: bool, hits: seq<bool>, hit: bool,
                    before: seq<RollbackError>, errors: seq<RollbackError>)
    requires Matched(UndoOrder(start, index + 1), oks, before) && (ok <==> UndoFailed(index) !in errors)
    requires Charged(UndoOrder(start, index + 1), hits, before) && (PersistFailed(index) in errors ==> hit)
    requires forall e :: e in before ==> e in errors
    requires forall e :: e in errors ==> e in before || e == UndoFailed(index) || e == PersistFailed(index)
    ensures Matched(UndoOrder(start, index + 1) + [index], oks + [ok], errors)
    ensures Charged(UndoOrder(start, index + 1) + [index], hits + [hit], errors)
    ensures AllDone(oks + [ok]) <==> AllDone(oks) && ok
  {
    assert (oks + [ok])[|oks|] == ok;
    assert forall q :: 0 <= q < |oks| ==> (oks + [ok])[q] == oks[q];
    var order := UndoOrder(start, index + 1);
    UndoOrderExact(start, index + 1);
    forall q | 0 <= q < |oks| ensures oks[q] <==> UndoFailed(order[q]) !in errors {
      assert order[q] in order;
      assert oks[q] <==> UndoFailed(order[q]) !in before;
    }
    forall q | 0 <= q < |hits| && PersistFailed(order[q]) in errors ensures hits[q] {
      assert order[q] in order && order[q] != index;
    }
  }

  lemma FinalTally(j: Journal, oks: seq<bool>, hits: seq<bool>, undone: seq<RollbackError>, errors: seq<RollbackError>)
    requires Tallied(j, oks, undone) && Charged(UndoOrder(j.entries, 0), hits, undone)
    requires || errors == undone || errors == undone + [PersistRollbackRequired]
             || (undone == [] && (errors == [PersistDisconnected] || errors == [DeleteJournal]))
    ensures Tallied(j, oks, errors)
    ensures errors == [] || (errors == [DeleteJournal] && DeleteJournal !in undone) ==> AllDone(oks)
    ensures Charged(UndoOrder(j.entries, 0), hits, errors)
    ensures forall k :: UndoFailed(k) in errors <==> UndoFailed(k) in undone
    ensures forall k :: PersistFailed(k) in errors <==> PersistFailed(k) in undone
  {
  }

  /** What a rollback's errors and worlds say, from the world and the journal it starts with. */
  lemma RollbackMeaning(base: HostState, eg: Egress, flaky: bool, w: World, j: Journal, hits: seq<bool>, ws: seq<World>,
                        oks: seq<bool>, errors: seq<RollbackError>)
    requires Accounts(base, eg, w, j) && HitRun(hits, j, UndoOrder(j.entries, 0), ws, oks) && ws[0] == Bare(w)
    requires Tallied(j, oks, errors) && (!flaky ==> Count(hits) == 0)
    ensures PinGuard(base.routes, j.plan, w) && (KeepsGuard(base, flaky, w, j) || TunnelUndone(errors)) ==>
      Guarded(base.routes, j.plan, ws)
    ensures PinGuard(base.routes, j.plan, w) && !flaky ==> Guarded(base.routes, j.plan, ws)
    ensures Stranded(base, eg, j.plan, w) ==> Stranded(base, eg, j.plan, ws[|ws| - 1]) && UndoFailed(0) in errors
    ensures !flaky && AllRemovable(w.host.routes, j.entries) ==> AllDone(oks)
    ensures Apart(w, j) && AllDone(oks) ==> AllRemovable(w.host.routes, j.entries)
    ensures !AllDone(oks) && |j.entries| == 1 ==> UndoFailed(0) in errors
    ensures ws[|ws| - 1].device == w.device || ws[|ws| - 1].device.None?
  {
    hide Accounts, HitRun, PinGuard, Guarded, Stranded, AllRemovable, Apart, UndoOrder;
    RollbackFacts(base, eg, flaky, w, j, hits, ws, oks);
    UndoOrderExact(j.entries, 0);
    forall q | 0 <= q < |oks| ensures UndoOrder(j.entries, 0)[q] < |j.entries| {
      assert UndoOrder(j.entries, 0)[q] in UndoOrder(j.entries, 0);
    }
  }

  /** What an undisturbed Disconnect comes to, as far as it can be told from the world and the journal it finds. */
  ghost predicate Verdict(ok: bool, w: World, j: Journal) {
    if j.phase == ForeignConflict then !ok
    else
      && (AllRemovable(w.host.routes, j.entries) ==> ok)
      && (Apart(w, j) && ok ==> AllRemovable(w.host.routes, j.entries))
  }

  lemma VerdictMeans(ok: bool, w: World, j: Journal)
    requires Verdict(ok, w, j)
    ensures j.phase == ForeignConflict ==> !ok
    ensures AllRemovable(w.host.routes, j.entries) && j.phase != ForeignConflict ==> ok
  {
  }

  lemma VerdictOf(flaky: bool, w: World, j: Journal, oks: seq<bool>, ok: bool)
    requires !flaky ==> (AllRemovable(w.host.routes, j.entries) ==> AllDone(oks))
    requires !flaky ==> (Apart(w, j) && AllDone(oks) ==> AllRemovable(w.host.routes, j.entries))
    requires !flaky && j.phase != ForeignConflict ==> (ok <==> AllDone(oks))
    requires !flaky && j.phase == ForeignConflict ==> !ok
    ensures !flaky ==> Verdict(ok, w, j)
    ensures !flaky && j.phase != ForeignConflict && AllRemovable(w.host.routes, j.entries) ==> ok
  {
    hide AllRemovable, Apart;
  }

  /** The journal on disk, as a recoverable world has it. */
  lemma FoundOnDisk(base: HostState, eg: Egress, plan: Plan, w: World)
    requires Recoverable(base, eg, plan, w) && w.disk.Some?
    ensures w.disk.value.plan == plan && Accounts(base, eg, w, w.disk.value)
  {
  }

  /** Where no journal is needed no pin of the session stands. */
  lemma StrandedNeedsJournal(base: HostState, eg: Egress, plan: Plan, w: World)
    requires Recoverable(base, eg, plan, w) && w.disk.None?
    ensures !Stranded(base, eg, plan, w)
  {
    assert SettledAt(base.routes, w.host.routes, plan, plan.EndpointRoute().dest);
  }

  /** A journal in the disconnected phase names nothing that stands. */
  lemma DroppedFacts(base: HostState, eg: Egress, plan: Plan, w: World)
    requires Recoverable(base, eg, plan, w) && w.disk.Some? && w.disk.value.phase == Disconnected
    ensures !Stranded(base, eg, plan, w) && Verdict(true, w, w.disk.value)
    ensures AllRemovable(w.host.routes, w.disk.value.entries)
  {
    hide Stranded, Covers, ValidHeader, ValidSteps;
    if Stranded(base, eg, plan, w) {
      StrandedEntry(base, eg, w, w.disk.value);
    }
  }

  class Controller {
    const os: Host
    /** The interface the kernel would hand out next. */
    const next: DeviceHandle
    var device: Option<DeviceHandle>
    var disk: Option<Journal>
    var journal: Journal

    ghost const base: HostState
    ghost const plan: Plan
    /** The world after every step so far. */
    var trace: seq<World>
    /** What a crash of the machine may bring back for the journal, now and after every step so far. */
    var maybe: set<Option<Journal>>
    var surfaced: seq<set<Option<Journal>>>
    /** Every world so far kept the pin guard. */
    ghost var guarded: bool
    /** Every journal handed to the store. */
    ghost var handed: seq<Journal>
    /** The entries a rollback acted on, in order. */
    ghost var acts: seq<nat>
    /** How many commands had failed when the last rollback began. */
    ghost var failedBefore: nat

    function Now(): World
      reads this, os
    {
      World(HostState(os.routes, os.dns), device, disk)
    }

    /** Every step so far kept the protocol, and no journal handed over was invalid. */
    ghost predicate Inv()
      reads this, os
    {
      && trace != [] && trace[|trace| - 1] == Now()
      && Run(base, os.egress, plan, trace)
      && (guarded ==> Guarded(base.routes, plan, trace))
      && (forall k :: 0 <= k < |handed| ==> ValidJournal(handed[k]))
      && disk in maybe && |surfaced| == |trace| && surfaced[|trace| - 1] == maybe
      && forall k :: 0 <= k < |trace| ==>
           AllRecoverable(base, os.egress, plan, trace[k], surfaced[k]) && trace[k].disk in surfaced[k]
    }

    /** A process takes over the world as it stands: a new one without a device, or the one that owns it. */
    constructor (os: Host, device: Option<DeviceHandle>, disk: Option<Journal>, maybe: set<Option<Journal>>,
                 next: DeviceHandle, ghost base: HostState, ghost plan: Plan)
      requires AllRecoverable(base, os.egress, plan, World(HostState(os.routes, os.dns), device, disk), maybe)
      requires disk in maybe
      ensures Inv() && this.os == os && this.disk == disk && this.device == device && this.base == base
      ensures this.plan == plan
      ensures this.next == next && trace == [Now()] && this.maybe == maybe && handed == [] && acts == []
      ensures guarded <==> PinGuard(base.routes, plan, Now())
    {
      hide Recoverable, Run;
      this.os, this.device, this.disk, this.next, this.maybe := os, device, disk, next, maybe;
      this.base, this.plan := base, plan;
      var w := World(HostState(os.routes, os.dns), device, disk);
      assert w.(disk := disk) == w;
      Alone(base, os.egress, plan, w);
      this.trace, this.surfaced := [w], [maybe];
      this.handed, this.acts := [], [];
      this.guarded := PinGuard(base.routes, plan, w);
    }

    method Record()
      requires trace != [] && Run(base, os.egress, plan, trace) && |surfaced| == |trace|
      requires forall k :: 0 <= k < |trace| ==>
        AllRecoverable(base, os.egress, plan, trace[k], surfaced[k]) && trace[k].disk in surfaced[k]
      requires Recoverable(base, os.egress, plan, Now()) && Linked(trace[|trace| - 1], Now())
      requires AllRecoverable(base, os.egress, plan, Now(), maybe) && disk in maybe
      requires forall k :: 0 <= k < |handed| ==> ValidJournal(handed[k])
      requires guarded ==> Guarded(base.routes, plan, trace)
      modifies this`trace, this`surfaced, this`guarded
      ensures Inv() && trace == old(trace) + [Now()]
      ensures guarded <==> old(guarded) && PinGuard(base.routes, plan, Now())
    {
      hide Recoverable, Linked, PinGuard, ValidJournal, AllRecoverable;
      trace, surfaced := trace + [Now()], surfaced + [maybe];
      guarded := guarded && PinGuard(base.routes, plan, Now());
    }

    lemma NowRecoverable()
      requires Inv()
      ensures Recoverable(base, os.egress, plan, Now()) && AllRecoverable(base, os.egress, plan, Now(), maybe)
    {
      hide Recoverable, AllRecoverable;
    }

    lemma NowGuarded()
      requires Inv() && guarded
      ensures PinGuard(base.routes, plan, Now())
    {
    }

    // ---------- store and device ----------

    method StoreCreate(j: Journal) returns (ok: bool)
      modifies this`disk, this`maybe, this`handed, os.runner
      ensures os.runner.Went()
      ensures CreateOutcome(!os.runner.Quiet(), old(disk), j, disk, ok) && (old(disk).Some? ==> maybe == old(maybe))
      ensures ok <==> old(disk).None? && ValidJournal(j) && os.runner.Quiet()
      ensures SurfaceOutcome(old(maybe), Some(j), maybe, ok) && (old(disk) in old(maybe) ==> disk in maybe)
      ensures handed == old(handed) + [j]
    {
      handed := handed + [j];
      if disk.Some? || !ValidJournal(j) {
        return false;
      }
      var took, ran := os.runner.Effect();
      if took {
        disk, maybe := Some(j), if ran then {Some(j)} else maybe + {Some(j)};
      }
      return ran;
    }

    method StoreUpdate(j: Journal) returns (ok: bool)
      modifies this`disk, this`maybe, this`handed, os.runner
      ensures os.runner.Went()
      ensures UpdateOutcome(!os.runner.Quiet(), old(disk), j, disk, ok)
      ensures ok <==> old(disk).Some? && ValidJournal(j) && os.runner.Quiet()
      ensures old(disk).Some? && ValidJournal(j) ==> os.runner.run == old(os.runner.run) + 1
      ensures SurfaceOutcome(old(maybe), Some(j), maybe, ok) && (old(disk) in old(maybe) ==> disk in maybe)
      ensures handed == old(handed) + [j]
    {
      handed := handed + [j];
      if disk.None? || !ValidJournal(j) {
        return false;
      }
      var took, ran := os.runner.Effect();
      if took {
        disk, maybe := Some(j), if ran then {Some(j)} else maybe + {Some(j)};
      }
      return ran;
    }

    method StoreDelete() returns (ok: bool)
      modifies this`disk, this`maybe, os.runner
      ensures os.runner.Went()
      ensures DeleteOutcome(!os.runner.Quiet(), old(disk), disk, ok)
      ensures ok <==> old(disk).Some? && os.runner.Quiet()
      ensures SurfaceOutcome(old(maybe), None, maybe, ok) && (old(disk) in old(maybe) ==> disk in maybe)
    {
      if disk.None? {
        return false;
      }
      var took, ran := os.runner.Effect();
      if took {
        disk, maybe := None, if ran then {None} else maybe + {None};
      }
      return ran;
    }

    method StoreLoad() returns (r: Loading)
      modifies os.runner
      ensures os.runner.Went()
      ensures r.NotFound? ==> disk.None?
      ensures r.Loaded? ==> disk == Some(r.journal) && ValidJournal(r.journal)
      ensures (disk.Some? ==> ValidJournal(disk.value)) ==> (r.LoadFailed? <==> !os.runner.Quiet())
      ensures os.runner.run == old(os.runner.run) + 1 && os.runner.locks == old(os.runner.locks)
      ensures os.runner.Quiet() <==> os.runner.fates(old(os.runner.run)).Works?
    {
      var ran := os.runner.Attempt();
      if !ran || (disk.Some? && !ValidJournal(disk.value)) {
        return LoadFailed;
      }
      return if disk.None? then NotFound else Loaded(disk.value);
    }

    method OpenDevice() returns (ok: bool)
      modifies this`device, os.runner
      ensures os.runner.Went()
      ensures OpenOutcome(!os.runner.Quiet(), os.routes, next, old(device), device, ok)
      ensures ok <==> old(device).None? && Unused(os.routes, next.iface) && os.runner.Quiet()
    {
      if device.Some? || !Unused(os.routes, next.iface) {
        return false;
      }
      var took, ran := os.runner.Effect();
      if took {
        device := Some(next);
      }
      return ran;
    }

    method CloseDevice(handle: Option<DeviceHandle>) returns (ok: bool)
      modifies this`device, os`routes, os.runner
      ensures os.runner.Went()
      ensures CloseOutcome(!os.runner.Quiet(), old(os.routes), old(device), handle, os.routes, device, ok)
      ensures ok <==> old(device).None? || ((handle.Some? ==> handle == old(device)) && os.runner.Quiet())
    {
      if device.None? {
        return true;
      }
      if handle.Some? && handle != device {
        return false;
      }
      var took, ran := os.runner.Effect();
      if took {
        var kept: set<Prefix> := *;
        var iface := device.value.iface;
        os.routes := map d | d in os.routes && (os.routes[d].iface != iface || d in kept) :: os.routes[d];
        device := None;
      }
      return ran;
    }

    // ---------- persisting ----------

    /** The journal in memory is one the disk may hold next. */
    ghost predicate Persistable()
      reads this, os
    {
      && ValidJournal(journal) && journal.plan == plan
      && Covers(base, os.egress, Now().host, device, journal)
      && disk.Some? && JournalStep(disk.value, journal)
    }

    method Persist() returns (ok: bool)
      requires Inv() && Persistable()
      modifies this`disk, this`maybe, this`handed, this`trace, this`surfaced, this`guarded, os.runner
      ensures os.runner.Went()
      ensures Inv() && trace == old(trace) + [Now()] && guarded == old(guarded)
      ensures UpdateOutcome(!os.runner.Quiet(), old(disk), journal, disk, ok) && (ok ==> maybe == {disk})
      ensures os.runner.run == old(os.runner.run) + 1
      ensures ok <==> os.runner.Quiet()
    {
      hide ValidJournal, Covers, AllRecoverable, PinGuard, Run, Guarded;
      ghost var w, s := Now(), maybe;
      NowRecoverable();
      if guarded {
        NowGuarded();
      }
      ok := StoreUpdate(journal);
      SurfaceKept(base, os.egress, plan, w, s, Some(journal), Now(), maybe, ok);
      SamePinGuard(base.routes, plan, w, Now());
      Record();
    }

    // ---------- rollback ----------

    /** What a rollback starts from: the journal in memory covers the host, the one on disk lags behind it. */
    ghost predicate Ready()
      reads this, os
    {
      && Inv()
      && ValidJournal(journal) && journal.plan == plan
      && Covers(base, os.egress, Now().host, device, journal)
      && disk.Some? && Behind(disk.value, journal) && Rollable(disk.value.phase, journal.phase)
    }

    /** Nothing foreign stands in the way. */
    ghost predicate Smooth() { Unblocked(base.routes, plan) && Wired(os.egress, plan.EndpointRoute()) }

    /** Undoes one entry through its adapter. */
    method UndoEntry(index: nat) returns (ok: bool)
      requires index < |journal.entries|
      modifies this`device, this`acts, os`routes, os`dns, os.runner
      ensures os.runner.Went()
      ensures UndoOutcome(!os.runner.Quiet(), old(Now()), journal, index, Now(), ok)
      ensures acts == old(acts) + [index]
    {
      var entry := journal.entries[index];
      acts := acts + [index];
      if entry.kind == DNS {
        ok := os.RestoreIfOwned(journal.dnsBefore, journal.plan.Config());
      } else if entry.kind == Device {
        ok := CloseDevice(journal.device);
      } else if entry.route.Some? {
        ok := os.Remove(entry.route.value);
      } else {
        ok := false;
      }
    }

    method Undo(index: nat) returns (ok: bool)
      requires Ready() && index < |journal.entries|
      modifies this`device, this`trace, this`surfaced, this`guarded, this`acts, os`routes, os`dns, os.runner
      ensures os.runner.Went()
      ensures Ready() && trace == old(trace) + [Now()] && acts == old(acts) + [index]
      ensures UndoOutcome(!os.runner.Quiet(), old(Now()), journal, index, Now(), ok)
      ensures ok ==> Gone(base, Now().host, device, journal, index)
      ensures guarded <==> old(guarded) && PinGuard(base.routes, plan, Now())
    {
      hide ValidJournal, Covers, Behind, Linked, PinGuard, Gone, AllRecoverable, Guarded, Rollable;
      ghost var w := Now();
      NowRecoverable();
      ok := UndoEntry(index);
      hide UndoOutcome;
      UndoCovers(base, os.egress, !os.runner.Quiet(), w, journal, index, Now(), ok, journal);
      UndoCovers(base, os.egress, !os.runner.Quiet(), w, journal, index, Now(), ok, disk.value);
      UndoLinked(base, os.egress, !os.runner.Quiet(), w, journal, index, Now(), ok);
      UndoSurface(base, os.egress, !os.runner.Quiet(), w, journal, index, Now(), ok, maybe);
      if ok {
        UndoGone(base, os.egress, !os.runner.Quiet(), w, journal, index, Now());
      }
      Record();
    }

    /** Writes the journal in memory, which is ahead of the one on disk. */
    method PersistAhead(ghost was: Journal) returns (ok: bool)
      requires Inv() && ValidJournal(journal) && journal.plan == plan
      requires Covers(base, os.egress, Now().host, device, journal)
      requires disk.Some? && Behind(disk.value, was) && Behind(was, journal) && was.updatedAt < journal.updatedAt
      requires PhaseStep(disk.value.phase, journal.phase)
      modifies this`disk, this`maybe, this`handed, this`trace, this`surfaced, this`guarded, os.runner
      ensures os.runner.Went()
      ensures Inv() && trace == old(trace) + [Now()]
      ensures guarded == old(guarded) && (disk == Some(journal) || (!ok && disk == old(disk)))
      ensures os.runner.run == old(os.runner.run) + 1
      ensures ok ==> maybe == {disk}
      ensures disk.Some? && Behind(disk.value, journal) && Behind(old(disk).value, disk.value)
      ensures ok <==> os.runner.Quiet()
    {
      hide ValidJournal, Covers;
      BehindTrans(disk.value, was, journal);
      BehindSelf(disk.value);
      BehindSelf(journal);
      ok := Persist();
    }

    /** Undoes one live entry and records that it is undone. */
    method RollBackEntry(index: nat) returns (failed: Option<RollbackError>)
      requires Ready() && Undoing(journal.phase) && index < |journal.entries| && Live(journal.entries[index])
      modifies this, os, os.runner
      ensures os.runner.Went()
      ensures Ready() && old(trace) <= trace && acts == old(acts) + [index]
      ensures disk.Some? && (failed == Some(UndoFailed(index)) ==> journal == old(journal) && disk == old(disk))
      ensures failed != Some(UndoFailed(index)) ==>
        && os.runner.run > old(os.runner.run)
        && journal == Marked(old(journal), index, RolledBack,
                             NextTime(old(journal).updatedAt, os.runner.clock(os.runner.run - 1)))
      ensures failed.Some? ==> failed.value == UndoFailed(index) || failed.value == PersistFailed(index)
      ensures failed.None? ==> disk == Some(journal)
      ensures Behind(old(disk).value, disk.value)
      ensures var undone := failed != Some(UndoFailed(index));
        UndoOutcome(!os.runner.Quiet(), Bare(old(Now())), old(journal), index, Bare(Now()), undone)
      ensures guarded <==> old(guarded) && PinGuard(base.routes, plan, Now())
      ensures os.runner.Quiet() && failed != Some(UndoFailed(index)) ==> failed.None?
    {
      hide ValidJournal, Covers, Behind, PinGuard, Gone, Run, AllRecoverable, Guarded, UndoOutcome, Rollable;
      ghost var w := Now();
      var ok := Undo(index);
      SameUndo(!os.runner.Quiet(), w, journal, journal, index, Now(), ok);
      UndoAnyway(!os.runner.Quiet(), Bare(w), journal, index, Bare(Now()), ok);
      BehindSelf(disk.value);
      if !ok {
        return Some(UndoFailed(index));
      }
      var persisted := MarkUndone(index);
      return if persisted then None else Some(PersistFailed(index));
    }

    /** Marks an entry that is undone, and writes that. */
    method MarkUndone(index: nat) returns (ok: bool)
      requires Ready() && Undoing(journal.phase) && index < |journal.entries| && Live(journal.entries[index])
      requires Gone(base, Now().host, device, journal, index)
      modifies this`disk, this`maybe, this`journal, this`trace, this`surfaced, this`guarded, this`handed, os.runner
      ensures os.runner.Went() && os.runner.run == old(os.runner.run) + 1
      ensures Ready() && old(trace) <= trace && Behind(old(disk).value, disk.value)
      ensures journal ==
        Marked(old(journal), index, RolledBack, NextTime(old(journal).updatedAt, old(os.runner.Time())))
      ensures (ok <==> os.runner.Quiet()) && (ok ==> disk == Some(journal))
      ensures guarded == old(guarded)
      ensures PinGuard(base.routes, plan, Now()) == PinGuard(base.routes, plan, old(Now()))
    {
      hide ValidJournal, Covers, Behind, PinGuard, Gone, Run, AllRecoverable, Guarded, Rollable, PhaseStep;
      ghost var was, before := journal, Now();
      RollableStep(disk.value.phase, journal.phase);
      var at := NextTime(journal.updatedAt, os.runner.Time());
      journal := Marked(journal, index, RolledBack, at);
      MarkValid(was, index, at);
      MarkKeeps(base, os.egress, Now().host, device, was, index, at);
      ok := PersistAhead(was);
      SamePinGuard(base.routes, plan, before, Now());
    }

    /** How a rollback of `was` ended, given the journal `found` on disk. */
    ghost predicate Ended(quiet: bool, was: Journal, found: Journal, errors: seq<RollbackError>)
      reads this`device, this`disk, this`journal, os
    {
      // What is still live in memory is exactly what could not be undone.
      && SameRoutes(journal.entries, was.entries)
      && (forall k :: 0 <= k < |journal.entries| ==> (Live(journal.entries[k]) <==> UndoFailed(k) in errors))
      // An undo whose write succeeded is on disk for good.
      && (disk.Some? ==> forall k :: 0 <= k < |journal.entries| ==> WrittenOff(disk.value, was, k, errors))
      && (disk.Some? ==> Behind(found, disk.value) && Behind(disk.value, journal))
      && (disk.None? ==> errors == [] || errors == [DeleteJournal])
      // Without errors everything is given back.
      && (errors == [] ==> disk.None? && device.None? && os.dns == base.dns && Settled(base.routes, os.routes, plan))
      && (errors == [] ==> RoutesGone(was.entries))
      && (errors != [] && errors != [PersistDisconnected] && errors != [DeleteJournal] ==>
            journal.phase == RollbackRequired)
      && (quiet && errors != [] ==> disk == Some(journal) && journal.phase == RollbackRequired)
      && (Charge(errors) == 0 && errors != [] ==> disk == Some(journal))
    }

    /** Announces the rollback, undoes what it can and records how that ended: `ws` and `oks` are the run of undos. */
    method RollBackAll()
      returns (errors: seq<RollbackError>, ghost hits: seq<bool>, ghost ws: seq<World>, ghost oks: seq<bool>)
      requires Ready() && (journal.phase == Disconnecting ==> disk == Some(journal))
      modifies this, os, os.runner
      ensures os.runner.Went()
      ensures Inv() && old(trace) <= trace && Ended(os.runner.Quiet(), old(journal), old(disk).value, errors)
      ensures acts == old(acts) + UndoOrder(old(journal).entries, 0)
      ensures HitRun(hits, old(journal), UndoOrder(old(journal).entries, 0), ws, oks)
      ensures ws[0] == Bare(old(Now())) && ws[|ws| - 1] == Bare(Now())
      ensures Charged(UndoOrder(old(journal).entries, 0), hits, errors)
      ensures Count(hits) + Charge(errors) <= os.runner.failed - old(os.runner.failed)
      ensures guarded <==> old(guarded) && Guarded(base.routes, plan, ws)
      ensures Tallied(old(journal), oks, errors) && (disk.None? ==> AllDone(oks))
      ensures os.runner.Quiet() && old(journal).phase != ForeignConflict ==> (errors == [] <==> AllDone(oks))
      ensures os.runner.Quiet() && old(journal).phase == ForeignConflict ==> errors != []
    {
      hide ValidJournal, Covers, Behind, PinGuard, Run, Settled, AllRecoverable, Guarded, HitRun, UndoOrder,
        Rollable, Tallied, AllDone, RoutesGone, WrittenOff, Charged, Charge, Count;
      ghost var w, j := Now(), journal;
      errors, hits, ws, oks := BeginAndUndo();
      ghost var was, undone := disk.value, errors;
      errors := FinishRollback(errors);
      FinalTally(j, oks, hits, undone, errors);
      ChargeFinal(undone, errors);
      if disk.Some? {
        BehindTrans(old(disk).value, was, disk.value);
        forall k | 0 <= k < |journal.entries| ensures WrittenOff(disk.value, j, k, errors) {
          StillWrittenOff(was, disk.value, j, k, undone, errors);
        }
      }
      SameGone(j.entries, journal.entries);
    }

    /** The first two parts of a rollback. */
    method BeginAndUndo()
      returns (errors: seq<RollbackError>, ghost hits: seq<bool>, ghost ws: seq<World>, ghost oks: seq<bool>)
      requires Ready() && (journal.phase == Disconnecting ==> disk == Some(journal))
      modifies this, os, os.runner
      ensures os.runner.Went()
      ensures Ready() && Undoing(journal.phase) && old(trace) <= trace
      ensures acts == old(acts) + UndoOrder(old(journal).entries, 0)
      ensures HitRun(hits, old(journal), UndoOrder(old(journal).entries, 0), ws, oks)
      ensures ws[0] == Bare(old(Now())) && ws[|ws| - 1] == Bare(Now())
      ensures Charged(UndoOrder(old(journal).entries, 0), hits, errors)
      ensures Count(hits) + Charge(errors) <= os.runner.failed - old(os.runner.failed)
      ensures guarded <==> old(guarded) && Guarded(base.routes, plan, ws)
      ensures Tallied(old(journal), oks, errors) && |journal.entries| == |old(journal).entries|
      ensures forall k :: 0 <= k < |journal.entries| ==> (Live(journal.entries[k]) <==> UndoFailed(k) in errors)
      ensures disk.Some? && forall k :: 0 <= k < |journal.entries| ==> WrittenOff(disk.value, old(journal), k, errors)
      ensures forall k :: 0 <= k < |journal.entries| ==> journal.entries[k].route == old(journal).entries[k].route
      ensures Behind(old(disk).value, disk.value)
      ensures errors == [] ==> disk == Some(journal) && journal.phase == Disconnecting
      ensures PersistDisconnected !in errors && DeleteJournal !in errors && PersistRollbackRequired !in errors
      ensures os.runner.Quiet() && old(journal).phase != ForeignConflict ==> (errors == [] <==> AllDone(oks))
      ensures old(journal).phase == ForeignConflict ==> errors != []
    {
      hide ValidJournal, Covers, Behind, PinGuard, Run, AllRecoverable, Guarded, HitRun, UndoOrder, Rollable, Matched,
        AllDone, Charged;
      ghost var w, j := Now(), journal;
      errors := BeginRollback();
      assert Bare(Now()) == Bare(w);
      ghost var begun, from := disk.value, journal;
      errors, hits, ws, oks := UndoAll(errors);
      SameRun(hits, from, j, ws, oks);
      FinalTally(j, oks, hits, errors, errors);
      BehindTrans(old(disk).value, begun, disk.value);
      forall k | 0 <= k < |journal.entries|
        ensures Live(journal.entries[k]) <==> UndoFailed(k) in errors
        ensures WrittenOff(disk.value, j, k, errors)
      {
        assert Passed(k, j.entries[k], errors);
      }
    }

    lemma SameGone(es: seq<Entry>, es': seq<Entry>)
      requires |es| == |es'| && forall k :: 0 <= k < |es| ==> es[k].route == es'[k].route
      ensures RoutesGone(es) == RoutesGone(es')
    {
    }

    method Rollback() returns (errors: seq<RollbackError>)
      requires Ready() && (journal.phase == Disconnecting ==> disk == Some(journal))
      modifies this, os, os.runner
      ensures os.runner.Went()
      ensures Inv() && old(trace) <= trace && Ended(os.runner.Quiet(), old(journal), old(disk).value, errors)
      // Every live entry is tried once, last first, whatever fails on the way.
      ensures acts == old(acts) + UndoOrder(old(journal).entries, 0)
      // The pin outlives the tunnel routes unless failures may meet a standing tunnel route and a loose pin.
      ensures old(guarded) && KeepsGuard(base, !os.runner.Quiet(), old(Now()), old(journal)) ==> guarded
      ensures old(guarded) && TunnelUndone(errors) ==> guarded
      // Each failed command leaves at most one entry live on disk, if all of them can be undone.
      ensures failedBefore == old(os.runner.failed) && Charge(errors) <= os.runner.failed - failedBefore
      ensures disk.Some? && NoneRevived(disk.value, old(journal)) ==> Owed(disk.value, errors)
      ensures disk.Some? && NoneRevived(disk.value, old(journal)) ==>
        Spared(disk.value, old(os.routes), old(journal).entries,
               os.runner.failed - failedBefore - Charge(errors))
      // A pin that the kernel has put elsewhere stays, and is reported.
      ensures old(Stranded(base, os.egress, plan, Now())) ==>
        Stranded(base, os.egress, plan, Now()) && UndoFailed(0) in errors
      ensures device == old(device) || device.None?
      // The journal goes only if every live route can be removed as it is found, and undisturbed then always.
      ensures disk.None? && Apart(old(Now()), old(journal)) ==> AllRemovable(old(os.routes), old(journal).entries)
      ensures os.runner.Quiet() ==> Verdict(errors == [], old(Now()), old(journal))
      ensures os.runner.Quiet() && old(journal).phase != ForeignConflict && errors != [] ==>
        |old(journal).entries| == 1 ==> UndoFailed(0) in errors
    {
      hide ValidJournal, Covers, Behind, PinGuard, Run, AllRecoverable, Guarded, HitRun, UndoOrder, Rollable,
        Tallied, AllDone, Ended, AllRemovable, Apart, KeepsGuard, Stranded, TunnelUndone, Verdict, Charged;
      ghost var w, j := Now(), journal;
      if guarded {
        NowGuarded();
      }
      ghost var hits, ws, oks, failed := [], [], [], os.runner.failed;
      errors, hits, ws, oks := RollBackAll();
      failedBefore := failed;
      RollbackMeaning(base, os.egress, !os.runner.Quiet(), w, j, hits, ws, oks, errors);
      StrandedBare(base, os.egress, plan, Now());
      VerdictOf(!os.runner.Quiet(), w, j, oks, errors == []);
      if disk.Some? && NoneRevived(disk.value, j) {
        ToldByEnd(os.runner.Quiet(), j, old(disk).value, errors);
        if AllRemovable(w.host.routes, j.entries) {
          EachFailureOne(base, os.egress, w, j, hits, ws, oks, errors, disk.value);
        }
      }
    }

    lemma ToldByEnd(quiet: bool, was: Journal, found: Journal, errors: seq<RollbackError>)
      requires disk.Some? && NoneRevived(disk.value, was)
      requires Ended(quiet, was, found, errors)
      ensures Owed(disk.value, errors)
    {
      OwedAll(disk.value, was, errors);
    }

    /** What the rollback loop has established for an entry it has passed: `e` is the entry as it started. */
    ghost predicate Passed(k: nat, e: Entry, errors: seq<RollbackError>)
      requires k < |journal.entries|
      reads this
    {
      (Live(journal.entries[k]) <==> UndoFailed(k) in errors) && (Live(e) ==> Kept(k, errors))
    }

    lemma TallyStart(begun: seq<RollbackError>)
      requires begun == [] || begun == [PersistDisconnecting] || begun == [CannotRollBack]
      ensures Tally(|journal.entries|, journal.entries, begun) && Matched([], [], begun) && Charged([], [], begun)
    {
    }

    lemma TallyDead(index: nat, start: seq<Entry>, errors: seq<RollbackError>)
      requires index < |start| == |journal.entries| && Tally(index + 1, start, errors)
      ensures !Live(journal.entries[index]) && journal.entries[index] == start[index] ==> Tally(index, start, errors)
    {
      hide Kept;
    }

    lemma TallyDone(start: seq<Entry>, errors: seq<RollbackError>)
      requires |start| == |journal.entries| && Tally(0, start, errors)
      ensures forall k :: 0 <= k < |start| ==> Passed(k, start[k], errors)
      ensures PersistDisconnected !in errors && DeleteJournal !in errors && PersistRollbackRequired !in errors
    {
      hide Passed;
    }

    /** The descending loop. */
    method UndoAll(begun: seq<RollbackError>)
      returns (errors: seq<RollbackError>, ghost hits: seq<bool>, ghost ws: seq<World>, ghost oks: seq<bool>)
      requires Ready() && Undoing(journal.phase) && disk.Some?
      requires begun == [] ==> disk == Some(journal) && journal.phase == Disconnecting
      requires begun == [] || begun == [PersistDisconnecting] || begun == [CannotRollBack]
      modifies this, os, os.runner
      ensures os.runner.Went()
      ensures Ready() && Undoing(journal.phase) && old(trace) <= trace
      ensures acts == old(acts) + UndoOrder(old(journal).entries, 0)
      ensures HitRun(hits, old(journal), UndoOrder(old(journal).entries, 0), ws, oks)
      ensures Charged(UndoOrder(old(journal).entries, 0), hits, errors)
      ensures Count(hits) <= os.runner.failed - old(os.runner.failed)
      ensures PersistDisconnecting in errors <==> PersistDisconnecting in begun
      ensures ws[0] == Bare(old(Now())) && ws[|ws| - 1] == Bare(Now())
      ensures guarded <==> old(guarded) && Guarded(base.routes, plan, ws)
      ensures Tallied(old(journal), oks, errors)
      ensures |journal.entries| == |old(journal).entries|
      ensures forall k :: 0 <= k < |journal.entries| ==> Passed(k, old(journal).entries[k], errors)
      ensures Behind(old(disk).value, disk.value)
      ensures errors == [] ==> disk == Some(journal) && journal.phase == Disconnecting && begun == []
      ensures forall k :: 0 <= k < |journal.entries| ==> journal.entries[k].route == old(journal).entries[k].route
      ensures PersistDisconnected !in errors && DeleteJournal !in errors && PersistRollbackRequired !in errors
      ensures begun != [] ==> errors != []
      ensures os.runner.Quiet() && begun == [] && AllDone(oks) ==> errors == []
    {
      hide ValidJournal, Covers, Behind, PinGuard, Run, Guarded, Rollable, AllRecoverable, HitRun, UndoOrder, Passed,
        UndoOutcome, AllDone, Count, SameShape;
      OrderEnds(journal.entries);
      TallyStart(begun);
      hide Tally, Matched, Charged;
      ghost var first, start := journal, journal.entries;
      BehindSelf(disk.value);
      errors, hits, ws, oks := begun, [], [Bare(Now())], [];
      EmptyRun(first, Bare(Now()));
      SelfShape(first);
      StartGuard();
      for index := |journal.entries| downto 0
        invariant |journal.entries| == |start| && SameShape(journal, first)
        invariant Ready() && Undoing(journal.phase) && old(trace) <= trace
        invariant acts == old(acts) + UndoOrder(start, index)
        invariant HitRun(hits, first, UndoOrder(start, index), ws, oks)
        invariant Charged(UndoOrder(start, index), hits, errors) && os.runner.Went()
        invariant Count(hits) <= os.runner.failed - old(os.runner.failed)
        invariant |ws| == |UndoOrder(start, index)| + 1 && |oks| == |UndoOrder(start, index)|
        invariant ws[0] == Bare(old(Now())) && ws[|ws| - 1] == Bare(Now())
        invariant guarded <==> old(guarded) && Guarded(base.routes, plan, ws)
        invariant forall k :: 0 <= k < index ==> journal.entries[k] == start[k]
        invariant Tally(index, start, errors) && Matched(UndoOrder(start, index), oks, errors)
        invariant Behind(old(disk).value, disk.value)
        invariant errors == [] ==> disk == Some(journal) && journal.phase == Disconnecting && begun == []
        invariant begun != [] ==> errors != []
        invariant PersistDisconnecting in errors <==> PersistDisconnecting in begun
        invariant os.runner.Quiet() && begun == [] && AllDone(oks) ==> errors == []
      {
        OrderStep(start, index);
        TallyDead(index, start, errors);
        if Live(journal.entries[index]) {
          ghost var was := disk.value;
          ghost var ok: bool;
          ghost var w, now, order := Bare(Now()), journal, UndoOrder(start, index + 1);
          ghost var before, failed := errors, os.runner.failed;
          errors, ok := StepBack(index, start, errors);
          ghost var hit := os.runner.failed != failed;
          BehindTrans(old(disk).value, was, disk.value);
          assert acts == old(acts) + (order + [index]);
          ShapeUndo(hit, w, now, first, index, Bare(Now()), ok);
          ShapeTrans(journal, now, first);
          ExtendRun(hits, first, order, ws, oks, index, hit, Bare(Now()), ok);
          ExtendGuard(ws, Bare(Now()));
          ExtendMatch(start, index, oks, ok, hits, hit, before, errors);
          hits, ws, oks := hits + [hit], ws + [Bare(Now())], oks + [ok];
        }
      }
      TallyDone(start, errors);
      ShapeRoutes(journal, first);
    }

    /** One turn of the loop for a live entry. */
    method StepBack(index: nat, ghost start: seq<Entry>, errors: seq<RollbackError>)
      returns (all: seq<RollbackError>, ghost ok: bool)
      requires Ready() && Undoing(journal.phase) && |start| == |journal.entries|
      requires index < |journal.entries| && Live(journal.entries[index]) && Tally(index + 1, start, errors)
      modifies this, os, os.runner
      ensures os.runner.Went()
      ensures Ready() && Undoing(journal.phase) && old(trace) <= trace && acts == old(acts) + [index]
      ensures |journal.entries| == |start| && forall k :: 0 <= k < index ==>
        journal.entries[k] == old(journal).entries[k]
      ensures SameShape(journal, old(journal))
      ensures Tally(index, start, all) && Behind(old(disk).value, disk.value)
      ensures all == [] ==> errors == [] && disk == Some(journal) && journal.phase == old(journal).phase
      ensures errors != [] ==> all != []
      ensures UndoOutcome(!os.runner.Quiet(), Bare(old(Now())), old(journal), index, Bare(Now()), ok)
      ensures guarded <==> old(guarded) && PinGuard(base.routes, plan, Now())
      ensures forall e :: e in all ==> e in errors || e == UndoFailed(index) || e == PersistFailed(index)
      ensures forall e :: e in errors ==> e in all
      ensures ok <==> UndoFailed(index) !in all
      ensures PersistFailed(index) in all ==> !os.runner.Quiet()
      ensures os.runner.Quiet() && ok ==> all == errors
    {
      hide ValidJournal, Covers, Behind, PinGuard, Run, Guarded, Rollable, AllRecoverable, UndoOutcome;
      ghost var was := disk.value;
      var failed := RollBackEntry(index);
      ok := failed != Some(UndoFailed(index));
      all := if failed.Some? then errors + [failed.value] else errors;
      KeptLonger(was, disk.value);
      assert forall e :: e in errors ==> e in all;
      forall k | index < k < |start| ensures Passed(k, start[k], all) {
        assert Passed(k, start[k], errors);
      }
      assert Passed(index, start[index], all);
    }

    /** What the loop knows when it has passed every entry from `index` on. */
    ghost predicate Tally(index: nat, start: seq<Entry>, errors: seq<RollbackError>)
      requires |start| == |journal.entries|
      reads this
    {
      && (forall k :: index <= k < |start| ==> Passed(k, start[k], errors))
      && (forall k :: 0 <= k < index ==> UndoFailed(k) !in errors && PersistFailed(k) !in errors)
      && PersistDisconnected !in errors && DeleteJournal !in errors && PersistRollbackRequired !in errors
    }

    /** Before the first undo the guard is that of the world it starts from. */
    lemma StartGuard()
      requires Inv()
      ensures guarded ==> Guarded(base.routes, plan, [Bare(Now())])
    {
      hide Run, AllRecoverable;
      if guarded {
        NowGuarded();
        SamePinGuard(base.routes, plan, Now(), Bare(Now()));
      }
    }

    lemma ExtendGuard(ws: seq<World>, w: World)
      requires w == Bare(Now())
      ensures Guarded(base.routes, plan, ws + [w]) <==>
        Guarded(base.routes, plan, ws) && PinGuard(base.routes, plan, Now())
    {
      SamePinGuard(base.routes, plan, Now(), w);
      hide PinGuard;
      assert (ws + [w])[|ws|] == w;
      assert forall k :: 0 <= k < |ws| ==> (ws + [w])[k] == ws[k];
    }

    /** An entry that was undone and whose write succeeded is rolled back on disk. */
    ghost predicate Kept(k: nat, errors: seq<RollbackError>)
      reads this
    {
      UndoFailed(k) !in errors && PersistFailed(k) !in errors ==>
        disk.Some? && k < |disk.value.entries| && !Live(disk.value.entries[k])
    }

    /** Announces the rollback on disk. */
    method BeginRollback() returns (errors: seq<RollbackError>)
      requires Ready()
      modifies this`disk, this`maybe, this`journal, this`trace, this`surfaced, this`guarded, this`handed, os.runner
      ensures os.runner.Went()
      ensures Ready() && Undoing(journal.phase) && old(trace) <= trace
      ensures journal == old(journal).(phase := journal.phase, updatedAt := journal.updatedAt)
      ensures errors == [] ==>
        journal.phase == Disconnecting && (disk == Some(journal) || (disk == old(disk) && journal == old(journal)))
      ensures errors == [] || errors == [PersistDisconnecting] || errors == [CannotRollBack]
      ensures journal.phase != old(journal).phase ==>
        journal.updatedAt == NextTime(old(journal).updatedAt, old(os.runner.Time()))
      ensures PersistDisconnecting in errors ==> !os.runner.Quiet()
      ensures guarded == old(guarded) && Behind(old(disk).value, disk.value)
      ensures errors == [CannotRollBack] <==> old(journal).phase == ForeignConflict
      ensures os.runner.Quiet() && old(journal).phase != ForeignConflict ==> errors == []
    {
      hide ValidJournal, Covers, Behind, PinGuard, Run, AllRecoverable, Guarded;
      errors := [];
      BehindSelf(disk.value);
      if journal.phase != Disconnecting {
        if AllowedTransition(journal.phase, Disconnecting) {
          ghost var was := journal;
          var at := NextTime(journal.updatedAt, os.runner.Time());
          journal := Phased(journal, Disconnecting, at);
          PhasedValid(was, Disconnecting, at);
          PhasedCovers(base, os.egress, Now().host, device, was, Disconnecting, at);
          var ok := PersistAhead(was);
          if !ok {
            errors := errors + [PersistDisconnecting];
          }
        } else {
          errors := errors + [CannotRollBack];
        }
      }
    }

    /** Records how the rollback ended, and drops the journal when nothing is owned any more. */
    method FinishRollback(errors: seq<RollbackError>) returns (all: seq<RollbackError>)
      requires Ready() && Undoing(journal.phase)
      requires errors == [] ==> disk == Some(journal) && journal.phase == Disconnecting
      requires errors == [] ==> forall k :: 0 <= k < |journal.entries| ==> !Live(journal.entries[k])
      modifies this`disk, this`maybe, this`journal, this`trace, this`surfaced, this`guarded, this`handed, os.runner
      ensures os.runner.Went()
      ensures Inv() && old(trace) <= trace && journal.entries == old(journal).entries
      ensures errors != [] ==> journal.phase == RollbackRequired && disk.Some?
      ensures journal.updatedAt == NextTime(old(journal).updatedAt, old(os.runner.Time()))
      // An error is added only for a command that failed, and what is not reported is on disk.
      ensures all != errors ==> !os.runner.Quiet()
      ensures errors != [] && all == errors ==> disk == Some(journal)
      ensures disk.Some? ==> Behind(old(disk).value, disk.value) && Behind(disk.value, journal)
      ensures errors != [] ==> all == errors || all == errors + [PersistRollbackRequired]
      ensures errors == [] ==> all == [] || all == [PersistDisconnected] || all == [DeleteJournal]
      ensures errors == [] ==> RoutesGone(journal.entries)
      ensures all == [] ==> disk.None? && device.None? && os.dns == base.dns && Settled(base.routes, os.routes, plan)
      ensures disk.None? ==> all == [] || all == [DeleteJournal]
      ensures guarded == old(guarded)
      ensures os.runner.Quiet() ==> all == errors && (errors != [] ==> disk == Some(journal))
    {
      hide ValidJournal, Covers, Behind, PinGuard, Run, Settled, AllRecoverable, Guarded;
      ghost var was := journal;
      if errors == [] {
        EntriesGone(base, os.egress, Now().host, device, journal);
      }
      var at := NextTime(journal.updatedAt, os.runner.Time());
      if |errors| > 0 {
        journal := Phased(journal, RollbackRequired, at);
        PhasedValid(was, RollbackRequired, at);
        PhasedCovers(base, os.egress, Now().host, device, was, RollbackRequired, at);
        var ok := PersistAhead(was);
        return if ok then errors else errors + [PersistRollbackRequired];
      }
      journal := Phased(journal, Disconnected, at);
      PhasedValid(was, Disconnected, at);
      PhasedCovers(base, os.egress, Now().host, device, was, Disconnected, at);
      var ok := PersistAhead(was);
      if !ok {
        return [PersistDisconnected];
      }
      ok := DropJournal();
      return if ok then [] else [DeleteJournal];
    }

    /** Deletes the journal of a session that owns nothing. */
    method DropJournal() returns (ok: bool)
      requires Inv() && disk.Some? && disk.value.phase == Disconnected
      modifies this`disk, this`maybe, this`trace, this`surfaced, this`guarded, os.runner
      ensures os.runner.Went()
      ensures Inv() && trace == old(trace) + [Now()] && (disk == old(disk) || disk.None?) && guarded == old(guarded)
      ensures DeleteOutcome(!os.runner.Quiet(), old(disk), disk, ok)
      ensures device == old(device) && device.None? && os.dns == base.dns && Settled(base.routes, os.routes, plan)
    {
      hide Covers, Settled, ValidHeader, ValidSteps, AllRecoverable, PinGuard, Run, Guarded;
      NowRecoverable();
      if guarded {
        NowGuarded();
      }
      LiveCountZero(disk.value.entries);
      AllRolledBack(base, os.egress, Now().host, device, disk.value);
      ghost var w, s := Now(), maybe;
      ok := StoreDelete();
      SurfaceKept(base, os.egress, plan, w, s, None, Now(), maybe, ok);
      SamePinGuard(base.routes, plan, w, Now());
      Record();
    }

    // ---------- Disconnect ----------

    /** The request is well formed and comes from the owner of the journal. */
    predicate Entitled(sessionId: string, ownerUid: int)
      reads this
    {
      ValidSessionID(sessionId) && ownerUid >= 0 && (disk.Some? ==> disk.value.ownerUid == ownerUid)
    }

    /** The journal to disconnect by, if the request may and nothing fails. */
    method LockAndLoad(sessionId: string, ownerUid: int) returns (loaded: Loading)
      requires disk.Some? ==> ValidJournal(disk.value)
      modifies os.runner
      ensures os.runner.Went()
      ensures !loaded.LoadFailed? ==> Entitled(sessionId, ownerUid) && os.runner.LockedFirst()
      ensures loaded.NotFound? ==> disk.None?
      ensures loaded.Loaded? ==> disk == Some(loaded.journal) && os.runner.run == old(os.runner.run) + 2
      ensures Entitled(sessionId, ownerUid) ==> (loaded.LoadFailed? <==> !os.runner.Quiet())
      ensures os.runner.fates(old(os.runner.run)).Works? && os.runner.fates(old(os.runner.run) + 1).Works? ==>
        Entitled(sessionId, ownerUid) ==> !loaded.LoadFailed?
    {
      hide ValidJournal, ValidSessionID;
      if !ValidSessionID(sessionId) || ownerUid < 0 {
        return LoadFailed;
      }
      var locked := os.runner.Acquire();
      if !locked {
        return LoadFailed;
      }
      loaded := StoreLoad();
      if loaded.Loaded? && loaded.journal.ownerUid != ownerUid {
        return LoadFailed;
      }
    }

    method Disconnect(sessionId: string, ownerUid: int) returns (ok: bool, errors: seq<RollbackError>)
      requires Inv() && sessionId == plan.sessionId
      modifies this, os, os.runner
      ensures os.runner.Went()
      ensures Inv() && old(trace) <= trace && (device == old(device) || device.None?)
      ensures ok ==> disk.None? && device.None? && os.dns == base.dns && Settled(base.routes, os.routes, plan)
      // Nothing is done without the lock.
      ensures ok || Now() != old(Now()) || acts != old(acts) ==> os.runner.LockedFirst()
      // A malformed request, or one that is not the owner's, touches nothing.
      ensures !old(Entitled(sessionId, ownerUid)) ==> !ok && Now() == old(Now())
      // Retries converge: entries on disk only advance, live ones never multiply, and only live ones are acted on.
      ensures disk.Some? ==> old(disk).Some? && Behind(old(disk).value, disk.value)
      ensures disk.Some? ==> LiveCount(disk.value.entries) <= LiveCount(old(disk).value.entries)
      ensures acts == old(acts) || (old(disk).Some? && acts == old(acts) + UndoOrder(old(disk).value.entries, 0))
      // Nothing but a failed lock or load keeps it from acting.
      ensures old(Entitled(sessionId, ownerUid) && disk.Some? && disk.value.phase != Disconnected) ==>
        os.runner.fates(old(os.runner.run)).Works? && os.runner.fates(old(os.runner.run) + 1).Works? ==>
          acts == old(acts) + UndoOrder(old(disk).value.entries, 0)
      // Each failed command leaves at most one entry live on disk, if all of them can be undone.
      ensures disk.Some? && acts != old(acts) ==> Owed(disk.value, errors) && failedBefore >= old(os.runner.failed)
      ensures disk.Some? && acts != old(acts) ==>
        Spared(disk.value, old(os.routes), old(disk).value.entries,
               os.runner.failed - failedBefore - Charge(errors))
      // An undo that succeeded and was written makes the count fall.
      ensures disk.Some? && acts != old(acts) ==> forall k :: 0 <= k < |old(disk).value.entries| ==>
        (Live(old(disk).value.entries[k]) && UndoFailed(k) !in errors && PersistFailed(k) !in errors ==>
           LiveCount(disk.value.entries) < LiveCount(old(disk).value.entries))
      // The pin outlives the tunnel routes, unless failures and a loose pin meet a standing tunnel route.
      ensures old(guarded) && TunnelUndone(errors) ==> guarded
      ensures old(guarded) && old(disk).None? ==> guarded
      ensures old(guarded) && old(disk).Some? && KeepsGuard(base, !os.runner.Quiet(), old(Now()), old(disk).value) ==>
        guarded
      // A pin that the kernel has put elsewhere stays, and is reported.
      ensures old(Stranded(base, os.egress, plan, Now())) ==> !ok && Stranded(base, os.egress, plan, Now())
      ensures old(Stranded(base, os.egress, plan, Now())) && acts != old(acts) ==> UndoFailed(0) in errors
      ensures os.runner.Quiet() && old(Entitled(sessionId, ownerUid) && Stranded(base, os.egress, plan, Now())) ==>
        UndoFailed(0) in errors
      // The journal goes only if every live route of it can be removed as it is found, and undisturbed then always.
      ensures disk.None? && old(disk).Some? && Apart(old(Now()), old(disk).value) ==>
        AllRemovable(old(os.routes), old(disk).value.entries)
      ensures os.runner.Quiet() && old(disk).None? && old(Entitled(sessionId, ownerUid)) ==> ok
      ensures os.runner.Quiet() && old(disk).Some? && old(Entitled(sessionId, ownerUid)) ==>
        Verdict(ok, old(Now()), old(disk).value)
      ensures os.runner.Quiet() && Smooth() && old(Entitled(sessionId, ownerUid)) ==>
        Answerable(old(disk), ownerUid) ==> ok
      // What an undisturbed call leaves on disk is allowed to follow what it found, but for a foreign conflict.
      ensures os.runner.Quiet() && old(disk).Some? && old(Entitled(sessionId, ownerUid)) ==>
        PhaseLeft(old(disk).value, ok)
    {
      hide ValidJournal, Covers, Behind, PinGuard, Run, Settled, Unblocked, Wired, LiveCount, AllRecoverable, Guarded,
        KeepsGuard, Stranded, Verdict, UndoOrder, TunnelUndone, PhaseLeft, Apart, AllRemovable, Smooth, Owed, Spared,
        Charge, ValidSessionID;
      ok, errors := false, [];
      ghost var w := Now();
      NowRecoverable();
      if guarded {
        NowGuarded();
      }
      if disk.Some? {
        BehindSelf(disk.value);
        FoundOnDisk(base, os.egress, plan, w);
      } else {
        StrandedNeedsJournal(base, os.egress, plan, w);
      }
      var loaded := LockAndLoad(sessionId, ownerUid);
      if !loaded.Loaded? {
        ok := loaded.NotFound?;
        return;
      }
      journal := loaded.journal;
      if journal.phase == Disconnected {
        ok := DropJournal();
        if !ok {
          errors := [DeleteJournal];
        }
        DroppedFacts(base, os.egress, plan, w);
        DroppedPhase(w.disk.value, ok);
        return;
      }
      ghost var failed := os.runner.failed;
      ok, errors := DisconnectLoaded();
      KeepsLess(base, !os.runner.Quiet(), os.runner.failed != failed, w, w.disk.value);
    }

    /** After an undisturbed rollback: the journal is gone, or it says that a rollback is required, which the table
        allows unless it was in a foreign conflict. */
    ghost predicate PhaseLeft(found: Journal, ok: bool)
      reads this
    {
      && (disk.Some? <==> !ok) && (disk.Some? ==> disk.value.phase == RollbackRequired)
      && (disk.Some? && !OnTable(found.phase, disk.value.phase) <==> found.phase == ForeignConflict)
    }

    /** Rolls back the journal that was loaded. */
    method DisconnectLoaded() returns (ok: bool, errors: seq<RollbackError>)
      requires Inv() && disk == Some(journal) && ValidJournal(journal) && journal.plan == plan
      requires journal.phase != Disconnected
      modifies this, os, os.runner
      ensures os.runner.Went()
      ensures Inv() && old(trace) <= trace && (ok <==> errors == []) && (device == old(device) || device.None?)
      ensures ok ==> disk.None? && device.None? && os.dns == base.dns && Settled(base.routes, os.routes, plan)
      ensures disk.Some? ==>
        Behind(old(journal), disk.value) && LiveCount(disk.value.entries) <= LiveCount(old(journal).entries)
      ensures acts == old(acts) + UndoOrder(old(journal).entries, 0)
      ensures disk.Some? ==> Owed(disk.value, errors) && failedBefore == old(os.runner.failed)
      ensures disk.Some? ==>
        Spared(disk.value, old(os.routes), old(journal).entries,
               os.runner.failed - failedBefore - Charge(errors))
      ensures disk.Some? ==> forall k :: 0 <= k < |old(journal).entries| ==>
        (Live(old(journal).entries[k]) && UndoFailed(k) !in errors && PersistFailed(k) !in errors ==>
           LiveCount(disk.value.entries) < LiveCount(old(journal).entries))
      ensures old(guarded) && KeepsGuard(base, !os.runner.Quiet(), old(Now()), old(journal)) ==> guarded
      ensures old(guarded) && TunnelUndone(errors) ==> guarded
      ensures old(Stranded(base, os.egress, plan, Now())) ==>
        Stranded(base, os.egress, plan, Now()) && UndoFailed(0) in errors
      ensures disk.None? && Apart(old(Now()), old(journal)) ==> AllRemovable(old(os.routes), old(journal).entries)
      ensures os.runner.Quiet() ==> Verdict(ok, old(Now()), old(journal)) && PhaseLeft(old(journal), ok)
      ensures os.runner.Quiet() && Smooth() && old(journal).phase != ForeignConflict ==> ok
    {
      hide ValidJournal, Covers, Behind, PinGuard, Run, Settled, Unblocked, Wired, LiveCount, AllRecoverable, Guarded,
        KeepsGuard, Stranded, Verdict, AllRemovable, UndoOrder, TunnelUndone, Ended, Owed, Spared, NoneRevived, Apart;
      ghost var w, found := Now(), journal;
      NowRecoverable();
      BehindSelf(found);
      FoundOnDisk(base, os.egress, plan, w);
      PhaseKnown(journal);
      errors := Rollback();
      ok := errors == [];
      EndedDisk(os.runner.Quiet(), found, errors);
      if disk.Some? {
        BehindRevivesNone(found, disk.value);
      }
      if os.runner.Quiet() {
        VerdictMeans(ok, w, found);
      }
      if os.runner.Quiet() && Smooth() {
        SmoothRemovable(base, os.egress, w, found);
      }
    }

    lemma DroppedPhase(found: Journal, ok: bool)
      requires found.phase == Disconnected
      ensures disk.None? && ok ==> PhaseLeft(found, ok)
    {
    }

    /** What the end of a rollback means for the journal it found on disk. */
    lemma EndedDisk(quiet: bool, found: Journal, errors: seq<RollbackError>)
      requires Ended(quiet, found, found, errors)
      ensures disk.Some? ==> LiveCount(disk.value.entries) <= LiveCount(found.entries) && Behind(found, disk.value)
      ensures disk.Some? ==> |disk.value.entries| <= |found.entries|
      ensures disk.Some? ==> forall k :: 0 <= k < |found.entries| ==>
        (Live(found.entries[k]) && UndoFailed(k) !in errors && PersistFailed(k) !in errors ==>
           LiveCount(disk.value.entries) < LiveCount(found.entries))
      ensures errors == [] ==> disk.None? && device.None? && os.dns == base.dns && Settled(base.routes, os.routes, plan)
      ensures quiet && errors != [] ==> disk.Some? && disk.value.phase == RollbackRequired
    {
      hide Behind, Settled, LiveCount;
      if disk.Some? {
        Converges(found, disk.value, journal);
        forall k |
          0 <= k < |found.entries| && Live(found.entries[k]) && UndoFailed(k) !in errors && PersistFailed(k) !in errors
          ensures LiveCount(disk.value.entries) < LiveCount(found.entries)
        {
          assert WrittenOff(disk.value, found, k, errors);
        }
      }
    }

    /** None of the entries' routes stands. */
    ghost predicate RoutesGone(es: seq<Entry>)
      reads os
    {
      forall k :: 0 <= k < |es| && es[k].route.Some? ==> es[k].route.value.dest !in os.routes
    }

    // ---------- Connect ----------

    /** Everything recorded so far is applied, on the host and on disk. */
    ghost predicate Advancing()
      reads this, os
    {
      && Inv() && journal.plan == plan && disk == Some(journal) && maybe == {disk}
      && Forwarded(base, os.egress, Now(), journal)
    }

    /** The last intent is recorded in memory. */
    ghost predicate Intending()
      reads this, os
    {
      Inv() && journal.plan == plan && Pending(base, os.egress, Now(), journal)
    }

    method RecordIntent(kind: StepKind, route: Option<Route>) returns (ok: bool)
      requires Advancing() && |journal.entries| < plan.StepCount()
      requires kind == KindAt(plan, |journal.entries|) && route == RouteAt(plan, journal.device, |journal.entries|)
      modifies this`disk, this`maybe, this`journal, this`trace, this`surfaced, this`guarded, this`handed, os.runner
      ensures os.runner.Went()
      ensures Ready() && Intending() && old(trace) <= trace && guarded == old(guarded)
      ensures journal.entries == old(journal).entries + [Entry(kind, Planned, route)]
      ensures journal == old(journal).(entries := journal.entries, updatedAt := journal.updatedAt)
      ensures journal.updatedAt == NextTime(old(journal).updatedAt, old(os.runner.Time()))
      ensures ok ==> disk == Some(journal) && maybe == {disk}
      ensures os.runner.Quiet() ==> ok
    {
      hide ValidJournal, Covers, Behind, PinGuard, Run, Forwarded, Guarded, Pending, KindAt, RouteAt, Plan.StepCount,
        AllRecoverable;
      var at := NextTime(journal.updatedAt, os.runner.Time());
      ghost var was := journal;
      ForwardedPhase(base, os.egress, Now(), was);
      IntentPending(base, os.egress, Now(), was, Entry(kind, Planned, route), at);
      journal := journal.(entries := journal.entries + [Entry(kind, Planned, route)], updatedAt := at);
      PendingValid(base, os.egress, Now(), journal);
      PendingCovers(base, os.egress, Now(), journal);
      BehindSelf(was);
      ok := PersistAhead(was);
      SamePending(base, os.egress, journal, Now().host, device, Some(was), disk);
    }

    /** The check of the route comes to the same before and after the intent is recorded: a planned route is valid. */
    method ApplyRoute(kind: StepKind, route: Route) returns (ok: bool)
      requires Advancing() && guarded && |journal.entries| < plan.StepCount()
      requires kind == KindAt(plan, |journal.entries|)
      requires RouteAt(plan, journal.device, |journal.entries|) == Some(route)
      modifies this`disk, this`maybe, this`journal, this`trace, this`surfaced, this`guarded, this`handed,
        os`routes, os.runner
      ensures os.runner.Went()
      ensures old(trace) <= trace && guarded && journal.device == old(journal).device
      ensures Grown(old(journal), Some(route))
      ensures if ok then Advancing() else Ready() && journal.phase == Connecting
      ensures RouteDecided(os.egress, !os.runner.Quiet(), old(os.routes), route, os.routes, ok)
      ensures Live(journal.entries[|old(journal).entries|])
    {
      hide ValidJournal, Covers, Behind, PinGuard, Run, Forwarded, Pending, Guarded, KindAt, RouteAt, Linked,
        ValidRoute, AllRecoverable, AddOutcome, RouteDecided, Grown, EndsWith;
      ghost var was := journal;
      ForwardedPhase(base, os.egress, Now(), journal);
      RoutePlannable(journal, |journal.entries|, route);
      var valid := ValidRoute(route);
      NotTried(os.egress, os.routes, route);
      var recorded := RecordIntent(kind, Some(route));
      GrownBy(was, journal, kind, route);
      if !recorded || !valid {
        return false;
      }
      ghost var mid, t, failed := journal, os.routes, os.runner.failed;
      ok := AddRecorded(route);
      DecidedAnyway(os.egress, os.runner.failed != failed, t, route, os.routes, ok);
      GrownBy(was, mid, kind, route);
    }

    /** An entry more, whether or not it was marked since. */
    lemma GrownBy(was: Journal, mid: Journal, kind: StepKind, route: Route)
      requires mid.entries == was.entries + [Entry(kind, Planned, Some(route))]
      requires mid.createdAt == was.createdAt == journal.createdAt && |journal.entries| == |mid.entries|
      requires forall k :: 0 <= k < |journal.entries| - 1 ==> journal.entries[k] == mid.entries[k]
      ensures EndsWith(mid, route)
      ensures EndsWith(journal, route) ==> Grown(was, Some(route)) && Live(journal.entries[|was.entries|])
    {
      assert |journal.entries| == |was.entries| + 1;
      if EndsWith(journal, route) {
        assert forall k :: 0 <= k < |was.entries| ==> journal.entries[k] == mid.entries[k] == was.entries[k];
      }
    }

    /** The route whose intent is on disk. */
    method AddRecorded(route: Route) returns (ok: bool)
      requires Intending() && disk == Some(journal) && maybe == {disk} && guarded
      requires EndsWith(journal, route) && ValidRoute(route) && Expressible(route)
      modifies this`disk, this`maybe, this`journal, this`trace, this`surfaced, this`guarded, this`handed,
        os`routes, os.runner
      ensures os.runner.Went()
      ensures old(trace) <= trace && guarded && journal.device == old(journal).device
      ensures |journal.entries| == |old(journal).entries| && EndsWith(journal, route)
      ensures journal.createdAt == old(journal).createdAt
      ensures forall k :: 0 <= k < |journal.entries| - 1 ==> journal.entries[k] == old(journal).entries[k]
      ensures if ok then Advancing() else Ready() && journal.phase == Connecting
      ensures RouteDecided(os.egress, !os.runner.Quiet(), old(os.routes), route, os.routes, ok)
    {
      hide ValidJournal, Covers, Behind, PinGuard, Run, Forwarded, Pending, Guarded, KindAt, RouteAt, Linked,
        ValidRoute, AllRecoverable, AddOutcome, RouteDecided, Expressible;
      ghost var w := Now();
      var added := AddIntended(route);
      AddDecides(os.egress, !os.runner.Quiet(), w.host.routes, route, os.routes, added);
      if !added {
        return false;
      }
      ghost var at := NextTime(journal.updatedAt, os.runner.Time());
      RouteApplied(base, os.egress, !os.runner.Quiet(), w, journal, Now(), at);
      ok := MarkApplied(journal.device, at);
    }

    /** One entry more than before. */
    ghost predicate Grown(was: Journal, route: Option<Route>)
      reads this
    {
      && journal.createdAt == was.createdAt
      && |journal.entries| == |was.entries| + 1 && journal.entries[..|was.entries|] == was.entries
      && journal.entries[|was.entries|].route == route
    }

    method AddIntended(route: Route) returns (ok: bool)
      requires Intending() && disk == Some(journal) && maybe == {disk} && guarded
      requires journal.entries[|journal.entries| - 1].route == Some(route)
      modifies this`trace, this`surfaced, this`guarded, os`routes, os.runner
      ensures os.runner.Went()
      ensures Ready() && journal.phase == Connecting && trace == old(trace) + [Now()] && guarded
      ensures AddOutcome(os.egress, !os.runner.Quiet(), old(os.routes), route, os.routes, ok)
    {
      hide ValidJournal, Covers, Behind, PinGuard, Run, Pending, Guarded, Linked, AddOutcome, AllRecoverable;
      ghost var w := Now();
      PendingValid(base, os.egress, w, journal);
      ok := os.Add(route);
      RouteStep(base, os.egress, !os.runner.Quiet(), w, journal, Now(), ok);
      AddLinked(os.egress, !os.runner.Quiet(), w, journal, Now(), ok);
      AddPinGuard(base, os.egress, !os.runner.Quiet(), w, journal, Now(), ok);
      OnlySurface(base, os.egress, plan, Now(), maybe);
      Record();
      BehindSelf(journal);
    }

    /** Records the last intent as applied. */
    method MarkApplied(made: Option<DeviceHandle>, ghost at: int) returns (ok: bool)
      requires Inv() && journal.plan == plan && disk == Some(journal) && journal.entries != []
      requires at == NextTime(journal.updatedAt, os.runner.Time())
      requires Forwarded(base, os.egress, Now(), AppliedLast(journal, made, at))
      requires JournalStep(journal, AppliedLast(journal, made, at))
      modifies this`disk, this`maybe, this`journal, this`trace, this`surfaced, this`guarded, this`handed, os.runner
      ensures os.runner.Went()
      ensures old(trace) <= trace && guarded == old(guarded) && journal == AppliedLast(old(journal), made, at)
      ensures if ok then Advancing() else Ready() && journal.phase == Connecting
      ensures os.runner.Quiet() ==> ok
    {
      hide ValidJournal, Covers, Behind, PinGuard, Run, Forwarded, Guarded, AllRecoverable;
      ghost var was := journal;
      journal := AppliedLast(journal, made, NextTime(journal.updatedAt, os.runner.Time()));
      ForwardedPhase(base, os.egress, Now(), journal);
      ForwardedCovers(base, os.egress, Now(), journal);
      BehindSelf(was);
      ok := PersistAhead(was);
      SameForwarded(base, os.egress, journal, Now().host, device, Some(was), disk);
    }

    method ApplyDevice() returns (ok: bool)
      requires Advancing() && guarded && |journal.entries| == 1
      modifies this`device, this`disk, this`maybe, this`journal, this`trace, this`surfaced, this`guarded, this`handed,
        os.runner
      ensures os.runner.Went()
      ensures old(trace) <= trace && guarded && Grown(old(journal), None)
      ensures if ok then Advancing() && journal.device == Some(next) else Ready() && journal.phase == Connecting
      ensures os.runner.Quiet() && Unused(os.routes, next.iface) && ValidDevice(next) ==> ok
      ensures ok ==> Unused(os.routes, next.iface) && ValidDevice(next)
    {
      hide ValidJournal, Covers, Behind, PinGuard, Run, Forwarded, Pending, Guarded, ValidDevice, Unused, Linked,
        AllRecoverable;
      assert KindAt(plan, 1) == Device && RouteAt(plan, journal.device, 1) == None && 1 < plan.StepCount();
      hide KindAt, RouteAt;
      ForwardedPhase(base, os.egress, Now(), journal);
      var recorded := RecordIntent(Device, None);
      if !recorded {
        return false;
      }
      ghost var w, failed := Now(), os.runner.failed;
      var made := OpenIntended();
      if !made || !ValidDevice(next) {
        return false;
      }
      ghost var at := NextTime(journal.updatedAt, os.runner.Time());
      DeviceApplied(base, os.egress, os.runner.failed != failed, w, journal, next, Now(), at);
      ok := MarkApplied(Some(next), at);
    }

    method OpenIntended() returns (ok: bool)
      requires Intending() && disk == Some(journal) && maybe == {disk} && guarded && |journal.entries| == 2
      modifies this`device, this`trace, this`surfaced, this`guarded, os.runner
      ensures os.runner.Went()
      ensures Ready() && journal.phase == Connecting && trace == old(trace) + [Now()] && guarded && old(device).None?
      ensures OpenOutcome(!os.runner.Quiet(), os.routes, next, old(device), device, ok)
    {
      hide ValidJournal, Covers, Behind, PinGuard, Run, Pending, Guarded, Linked, OpenOutcome, AllRecoverable;
      ghost var w := Now();
      NowGuarded();
      PendingValid(base, os.egress, w, journal);
      ok := OpenDevice();
      DeviceStep(base, os.egress, !os.runner.Quiet(), w, journal, next, Now(), ok);
      StepLinked(w, journal, Now());
      SamePinGuard(base.routes, plan, w, Now());
      OnlySurface(base, os.egress, plan, Now(), maybe);
      Record();
      BehindSelf(journal);
    }

    method ApplyDns() returns (ok: bool)
      requires Advancing() && guarded && plan.UsesDNS() && |journal.entries| == plan.StepCount() - 1
      modifies this`disk, this`maybe, this`journal, this`trace, this`surfaced, this`guarded, this`handed,
        os`dns, os.runner
      ensures os.runner.Went()
      ensures old(trace) <= trace && guarded && Grown(old(journal), None)
      ensures if ok then Advancing() else Ready() && journal.phase == Connecting
      ensures os.runner.Quiet() && ValidPlan(plan) && plan.dnsService in old(os.dns) ==> ok
    {
      hide ValidJournal, Covers, Behind, PinGuard, Run, Forwarded, Pending, Guarded, Linked, ValidPlan, ApplyOutcome,
        AllRecoverable;
      ghost var n := |journal.entries|;
      assert KindAt(plan, n) == DNS && RouteAt(plan, journal.device, n) == None;
      hide KindAt, RouteAt;
      ForwardedPhase(base, os.egress, Now(), journal);
      var recorded := RecordIntent(DNS, None);
      if !recorded {
        return false;
      }
      ghost var w, failed := Now(), os.runner.failed;
      var applied := SetIntended();
      ApplySucceeds(os.runner.failed != failed, w.host.dns, plan, os.dns, applied);
      if !applied {
        return false;
      }
      ghost var at := NextTime(journal.updatedAt, os.runner.Time());
      DnsApplied(base, os.egress, os.runner.failed != failed, w, journal, Now(), at);
      ok := MarkApplied(journal.device, at);
    }

    method SetIntended() returns (ok: bool)
      requires Intending() && disk == Some(journal) && maybe == {disk} && guarded
      requires journal.entries[|journal.entries| - 1].kind == DNS
      modifies this`trace, this`surfaced, this`guarded, os`dns, os.runner
      ensures os.runner.Went()
      ensures Ready() && journal.phase == Connecting && trace == old(trace) + [Now()] && guarded
      ensures ApplyOutcome(!os.runner.Quiet(), old(os.dns), plan.Config(), os.dns, ok)
    {
      hide ValidJournal, Covers, Behind, PinGuard, Run, Pending, Guarded, Linked, ApplyOutcome, AllRecoverable;
      ghost var w := Now();
      NowGuarded();
      PendingValid(base, os.egress, w, journal);
      ok := os.ApplyDNS(journal.plan.Config());
      DnsStep(base, os.egress, !os.runner.Quiet(), w, journal, Now(), ok);
      StepLinked(w, journal, Now());
      SamePinGuard(base.routes, plan, w, Now());
      OnlySurface(base, os.egress, plan, Now(), maybe);
      Record();
      BehindSelf(journal);
    }

    lemma AdvancingReady()
      requires Advancing()
      ensures Ready() && journal.phase == Connecting
    {
      hide ValidJournal, Covers, Behind, PinGuard, Run, Guarded, Forwarded, AllRecoverable;
      ForwardedPhase(base, os.egress, Now(), journal);
      ForwardedCovers(base, os.egress, Now(), journal);
      BehindSelf(journal);
    }

    method DeclareConnected() returns (ok: bool)
      requires Advancing() && |journal.entries| == plan.StepCount()
      modifies this`disk, this`maybe, this`journal, this`trace, this`surfaced, this`guarded, this`handed, os.runner
      ensures os.runner.Went()
      ensures old(trace) <= trace && guarded == old(guarded) && journal.entries == old(journal).entries
      ensures journal.createdAt == old(journal).createdAt
      ensures journal.updatedAt == NextTime(old(journal).updatedAt, old(os.runner.Time()))
      ensures ok ==> Inv() && disk == Some(journal) && journal.phase == Connected && device == journal.device
      ensures ok ==> Established(base, Now(), plan)
      ensures !ok ==> Ready() && journal.phase == Connected
      ensures os.runner.Quiet() ==> ok
    {
      hide ValidJournal, Covers, Behind, PinGuard, Run, Guarded, Forwarded, AllRecoverable;
      var at := NextTime(journal.updatedAt, os.runner.Time());
      ghost var was := journal;
      ForwardedPhase(base, os.egress, Now(), was);
      ForwardedEstablished(base, os.egress, Now(), was);
      ConnectedValid(base, os.egress, Now(), was, at);
      ForwardedCovers(base, os.egress, Now(), was);
      PhasedCovers(base, os.egress, Now().host, device, was, Connected, at);
      journal := Phased(journal, Connected, at);
      BehindSelf(was);
      ok := PersistAhead(was);
    }

    /** The forward loop over the tunnel routes. Undisturbed it stops only at a destination that was taken. */
    method ApplyTunnelRoutes() returns (ok: bool)
      requires Advancing() && guarded && |journal.entries| == 2 && journal.device == Some(next)
      modifies this`disk, this`maybe, this`journal, this`trace, this`surfaced, this`guarded, this`handed,
        os`routes, os.runner
      ensures os.runner.Went()
      ensures old(trace) <= trace && guarded && |journal.entries| >= 2 && journal.entries[0] == old(journal).entries[0]
      ensures journal.createdAt == old(journal).createdAt
      ensures if ok then Advancing() else Ready() && journal.phase == Connecting
      ensures ok ==> |journal.entries| == 2 + |plan.TunnelRoutes()|
      ensures ok ==> TunnelFree(base.routes, plan)
      ensures !ok && os.runner.Quiet() ==> Taken(base.routes, journal.entries) && !TunnelFree(base.routes, plan)
    {
      hide Inv, Ready, Forwarded, KindAt, RouteAt, Wired, Taken;
      StepsOfPlan(plan, next);
      ok := true;
      var routes := BuildTunnelRoutes(journal.plan);
      for i := 0 to |routes|
        invariant Advancing() && guarded && old(trace) <= trace && os.runner.Went()
        invariant |journal.entries| == 2 + i && journal.entries[0] == old(journal).entries[0]
        invariant journal.device == Some(next) && journal.createdAt == old(journal).createdAt
        invariant forall k :: 0 <= k < i ==> routes[k].dest !in base.routes
      {
        var route := routes[i];
        if !route.reject {
          route := route.(iface := next.iface);
        }
        assert RouteAt(plan, journal.device, |journal.entries|) == Some(route);
        NextFree(base, os.egress, Now(), journal);
        ghost var was := journal.entries;
        ok := ApplyRoute(TunnelRoute, route);
        assert journal.entries[..|was|][0] == was[0];
        if !ok {
          LastTaken(base.routes, journal.entries, |was|);
          return;
        }
      }
    }

    /** The steps after the journal exists. */
    method Proceed(verified: bool) returns (ok: bool)
      requires Advancing() && guarded && journal.entries == [] && os.routes == base.routes && Startable(base, plan)
      modifies this`device, this`disk, this`maybe, this`journal, this`trace, this`surfaced, this`guarded, this`handed,
        os`routes, os`dns, os.runner
      ensures os.runner.Went()
      ensures old(trace) <= trace && guarded && journal.createdAt == old(journal).createdAt
      ensures ok ==> Inv() && disk == Some(journal) && journal.phase == Connected && device == journal.device
      ensures ok ==> Established(base, Now(), plan)
      ensures !ok ==> Ready() && (journal.phase == Connecting || journal.phase == Connected)
      ensures !ok ==> journal.entries != [] && journal.entries[0].route == Some(plan.EndpointRoute())
      // The pin comes first, and everything else only if it is up as planned.
      ensures plan.EndpointRoute().dest in base.routes || !Reachable(os.egress, plan.EndpointRoute()) ==>
        !ok && |journal.entries| == 1 && Live(journal.entries[0]) && os.routes == base.routes && device == old(device)
      ensures os.runner.Quiet() && Misplaced(base, os.egress, plan) ==>
        && !ok && device == old(device)
        && os.routes == base.routes[plan.EndpointRoute().dest := Realized(os.egress, plan.EndpointRoute())]
      // Undisturbed, the outcome and the cause of a failure are those of the host as it was.
      ensures ok ==> verified && Favourable(base, os.egress, plan, next)
      ensures os.runner.Quiet() && verified && Favourable(base, os.egress, plan, next) ==> ok
      ensures os.runner.Quiet() && !ok && PinReady(base.routes, os.egress, plan) ==>
        (Taken(base.routes, journal.entries) <==>
           DeviceReady(base.routes, plan, next) && !TunnelFree(base.routes, plan))
    {
      hide Inv, Ready, Forwarded, Established, KindAt, RouteAt, Unused, ValidDevice, ValidPlan, Unblocked, Startable,
        TunnelFree, Realized;
      StepsOfPlan(plan, next);
      ok := ApplyRoute(EndpointRoute, journal.plan.EndpointRoute());
      if !ok {
        return;
      }
      ghost var pin, t := journal.entries[0], os.routes;
      UnusedWithPin(base.routes, plan, next.iface, os.routes);
      ok := ApplyDevice();
      assert journal.entries[..1][0] == pin;
      if !ok {
        return;
      }
      ok := ApplyTunnelRoutes();
      if !ok {
        return;
      }
      ok := Complete(verified);
    }

    /** The last steps: DNS if it is managed, then the verifier's verdict and the connected phase. */
    method Complete(verified: bool) returns (ok: bool)
      requires Advancing() && guarded && |journal.entries| == 2 + |plan.TunnelRoutes()| && Startable(base, plan)
      modifies this`disk, this`maybe, this`journal, this`trace, this`surfaced, this`guarded, this`handed,
        os`dns, os.runner
      ensures os.runner.Went()
      ensures old(trace) <= trace && guarded && journal.createdAt == old(journal).createdAt
      ensures ok ==> Inv() && disk == Some(journal) && journal.phase == Connected && device == journal.device
      ensures ok ==> Established(base, Now(), plan)
      ensures (ok ==> verified) && (os.runner.Quiet() && verified ==> ok)
      ensures !ok ==> Ready() && (journal.phase == Connecting || journal.phase == Connected)
      ensures !ok ==> journal.entries != [] && journal.entries[0] == old(journal).entries[0]
      ensures !ok && os.runner.Quiet() ==> !Taken(base.routes, journal.entries)
    {
      hide Inv, Ready, Forwarded, Established, Startable, KindAt, RouteAt, Wired, ValidPlan, Unblocked, Taken;
      StepsOfPlan(plan, next);
      ghost var first := journal.entries[0];
      if journal.plan.UsesDNS() {
        DnsStillThere(base, os.egress, Now(), journal);
        ghost var was := journal.entries;
        ok := ApplyDns();
        assert journal.entries[..|was|][0] == was[0];
        if !ok {
          return;
        }
      }
      if !verified {
        FreeEntries(base, os.egress, Now(), journal);
        AdvancingReady();
        return false;
      }
      ok := DeclareConnected();
    }

    /** The DNS pre-image, where DNS is managed. */
    method CaptureDns(p: Plan) returns (before: Option<DNSSnapshot>)
      modifies os.runner
      ensures os.runner.Went()
      ensures before.Some? ==> DnsCaptured(os.dns, p, before.value)
      ensures before.Some? ==> os.runner.Quiet()
      ensures os.runner.Quiet() && ValidPlan(p) && !p.UsesDNS() ==> before.Some?
      ensures os.runner.Quiet() && ValidPlan(p) && p.dnsService in os.dns && Readable(os.dns[p.dnsService]) ==>
        before.Some?
    {
      if !p.UsesDNS() {
        return Some(DNSSnapshot("", []));
      }
      var service := os.SnapshotService(p.dnsService);
      if service.None? || !ValidDNSConfig(p.Config()) {
        return None;
      }
      return Some(DNSSnapshot(Revision(service.value), [service.value]));
    }

    /** The checks and snapshots before anything changes: the journal to start from, if all is well. */
    method Prepare(p: Plan, now: int) returns (initial: Option<Journal>)
      requires p == plan
      modifies os.runner
      ensures os.runner.Went()
      ensures initial.Some? ==>
        ValidJournal(initial.value) && initial.value.plan == plan && initial.value.phase == Connecting
      ensures initial.Some? ==> initial.value.entries == [] && initial.value.device.None? && os.runner.LockedFirst()
      ensures initial.Some? ==> Preimage(HostState(os.routes, os.dns), initial.value)
      ensures initial.Some? ==> initial.value.createdAt == now != 0 && Startable(HostState(os.routes, os.dns), plan)
      ensures initial.Some? <==> now != 0 && Startable(HostState(os.routes, os.dns), plan) && os.runner.Quiet()
    {
      hide ValidPlan, ValidJournal, Preimage, Readable, HasDefault, ValidServiceImage;
      initial := None;
      var valid := ValidatePlan(p);
      if !valid {
        return;
      }
      var locked := os.runner.Acquire();
      if !locked {
        return;
      }
      var clear := os.CheckConflicts(p);
      if !clear {
        return;
      }
      var before := os.Snapshot();
      if before.None? || before.value.gateway != p.physicalGateway || before.value.iface != p.physicalInterface {
        return;
      }
      var dnsBefore := CaptureDns(p);
      if dnsBefore.None? {
        return;
      }
      ghost var host := HostState(os.routes, os.dns);
      if Startable(host, p) && now != 0 {
        InitialValid(host, p, dnsBefore.value, now);
      }
      InitialPreimage(host, p, before.value, dnsBefore.value, now);
      var j := InitialJournal(p, before.value, dnsBefore.value, now);
      var sound := ValidateJournal(j);
      if sound {
        InitialStartable(host, p, before.value, dnsBefore.value, now);
        initial := Some(j);
      }
    }

    /** Publishes the empty journal. */
    method Publish(initial: Journal) returns (ok: bool)
      requires Inv() && device.None? && (disk.None? ==> Now().host == base && guarded)
      requires ValidJournal(initial) && initial.plan == plan && initial.phase == Connecting
      requires initial.entries == [] && initial.device.None? && Preimage(Now().host, initial)
      modifies this`disk, this`maybe, this`trace, this`surfaced, this`guarded, this`handed, os.runner
      ensures os.runner.Went()
      ensures Inv() && trace == old(trace) + [Now()] && guarded == old(guarded)
      ensures CreateOutcome(!os.runner.Quiet(), old(disk), initial, disk, ok)
      ensures ok ==> Forwarded(base, os.egress, Now(), initial) && guarded && maybe == {disk}
    {
      hide ValidJournal, Covers, PinGuard, Run, Preimage, Forwarded, Guarded, AllRecoverable;
      ghost var w, s := Now(), maybe;
      NowRecoverable();
      if guarded {
        NowGuarded();
      }
      if disk.None? {
        InitialForwarded(base, os.egress, w, initial);
        ForwardedCovers(base, os.egress, w, initial);
      }
      ok := StoreCreate(initial);
      SamePinGuard(base.routes, plan, w, Now());
      if disk != w.disk {
        SameForwarded(base, os.egress, initial, w.host, device, w.disk, disk);
      }
      if w.disk.None? {
        SurfaceKept(base, os.egress, plan, w, s, Some(initial), Now(), maybe, ok);
      } else {
        assert maybe == s && Now() == w;
      }
      Record();
    }

    /** `now` is the clock's first reading, `verified` the verifier's verdict on the finished tunnel. */
    method Connect(p: Plan, now: int, verified: bool) returns (r: ConnectResult)
      requires Inv() && p == plan && device.None? && (disk.None? ==> Now().host == base && guarded)
      modifies this, os, os.runner
      ensures os.runner.Went()
      ensures Inv() && old(trace) <= trace
      ensures r.Up? ==> disk == Some(journal) && journal.phase == Connected && device == journal.device
      ensures r.Up? ==> Established(base, Now(), plan) && journal.createdAt == now
      ensures r.Up? ==> verified && now != 0 && old(disk).None? && Favourable(base, os.egress, plan, next)
      ensures r.Refused? ==> Now().host == old(Now().host) && device.None?
      ensures !r.Refused? || Now() != old(Now()) ==> old(disk).None? && Startable(base, plan) && os.runner.LockedFirst()
      ensures r.Refused? ==> disk == old(disk) || (old(disk).None? && disk.Some? && disk.value.entries == [])
      ensures r.Refused? && os.runner.Quiet() ==> disk == old(disk)
      // A clean failure gives back everything, except that a twin of the pin is lost.
      ensures r == Failed([]) ==> disk.None? && device.None? && os.dns == base.dns
      ensures r == Failed([]) ==> os.routes == base.routes - {plan.EndpointRoute().dest}
      ensures r == Failed([]) ==> (Now().host == base <==> !PinTwin(base.routes, plan))
      // Whatever failed, everything journaled was tried, last first, and what that came to is known.
      ensures acts == old(acts) + if r.Failed? then Downwards(|journal.entries|) else []
      ensures r.Failed? ==> old(os.runner.failed) <= failedBefore && Recouped(r.errors)
      // A failure that is not clean keeps its evidence.
      ensures r.Failed? && r.errors != [] && (r.errors != [DeleteJournal] || os.runner.Quiet()) ==> disk.Some?
      ensures old(guarded) && (r.Failed? ==> os.runner.failed == failedBefore || TunnelUndone(r.errors)) ==> guarded
      // Undisturbed, the host and the plan decide.
      ensures os.runner.Quiet() && old(disk).None? ==> (r.Refused? <==> now == 0 || !Startable(base, plan))
      ensures os.runner.Quiet() && !r.Refused? ==> ConnectVerdict(base, os.egress, plan, next, verified, r)
      // Where a route is in the way, what is left behind shows it.
      ensures os.runner.Quiet() && !r.Refused? ==> LeftBehind(r)
    {
      hide ValidJournal, Forwarded, Established, Startable, Preimage, Checked, Run, Guarded, AllRecoverable,
        ConnectVerdict, LeftBehind, Recouped, TunnelUndone, PinTwin, Favourable;
      var initial := Prepare(p, now);
      if initial.None? {
        return Refused;
      }
      var published := Publish(initial.value);
      if !published {
        return Refused;
      }
      journal := initial.value;
      r := Transact(verified);
    }

    /** The evidence of an undisturbed failure that is not clean. */
    ghost predicate LeftBehind(r: ConnectResult)
      reads this, os
    {
      && (r.Failed? && plan.EndpointRoute().dest in base.routes && r.errors != [] ==> UndoFailed(0) in r.errors)
      && (Misplaced(base, os.egress, plan) ==>
            r.Failed? && UndoFailed(0) in r.errors && Stranded(base, os.egress, plan, Now()))
      && (Obstructed(base, os.egress, plan, next) ==> disk.Some? && Taken(base.routes, disk.value.entries))
    }

    /** Everything after the first journal is on disk. */
    method Transact(verified: bool) returns (r: ConnectResult)
      requires Advancing() && guarded && journal.entries == [] && device.None? && Now().host == base
      requires Startable(base, plan)
      modifies this, os, os.runner
      ensures os.runner.Went()
      ensures Inv() && old(trace) <= trace && !r.Refused?
      ensures r.Up? ==> disk == Some(journal) && journal.phase == Connected && device == journal.device
      ensures r.Up? ==> Established(base, Now(), plan)
      ensures r.Up? ==> verified && Favourable(base, os.egress, plan, next)
      ensures r.Up? ==> journal.createdAt == old(journal).createdAt
      ensures r == Failed([]) ==> disk.None? && device.None? && os.dns == base.dns
      ensures r == Failed([]) ==> os.routes == base.routes - {plan.EndpointRoute().dest}
      ensures r == Failed([]) ==> (Now().host == base <==> !PinTwin(base.routes, plan))
      ensures r.Failed? && r.errors != [] && (r.errors != [DeleteJournal] || os.runner.Quiet()) ==> disk.Some?
      ensures acts == old(acts) + if r.Failed? then Downwards(|journal.entries|) else []
      ensures r.Failed? ==> old(os.runner.failed) <= failedBefore && Recouped(r.errors)
      ensures (r.Failed? ==> os.runner.failed == failedBefore || TunnelUndone(r.errors)) ==> guarded
      ensures os.runner.Quiet() ==> ConnectVerdict(base, os.egress, plan, next, verified, r) && LeftBehind(r)
    {
      hide ValidJournal, Covers, Behind, Run, Forwarded, Guarded, Established, Startable, Checked, Rollable,
        AllRecoverable, KeepsGuard, Stranded, Removable, TunnelUndone, Verdict, Wired, Taken, TunnelFree, DeviceReady,
        PinTwin, Recouped, Owed, Spared;
      var ok := Proceed(verified);
      if ok {
        assert LeftBehind(Up);
        return Up;
      }
      ghost var from, w := journal, Now();
      StartChecked(base, plan);
      if os.runner.Quiet() && Misplaced(base, os.egress, plan) {
        NowStranded(base, os.egress, plan, Now());
      }
      var errors := GiveUp();
      Recoups(w, from, errors);
      if os.runner.Quiet() {
        GaveUp(verified, w, from, errors);
      }
      return Failed(errors);
    }

    /** What the rollback of a failed Connect comes to, from the world and the journal it started with. */
    lemma GaveUp(verified: bool, w: World, j: Journal, errors: seq<RollbackError>)
      requires Accounts(base, os.egress, w, j) && j.plan == plan && (j.phase == Connecting || j.phase == Connected)
      requires Startable(base, plan) && !(verified && Favourable(base, os.egress, plan, next))
      requires j.entries != [] && j.entries[0].route == Some(plan.EndpointRoute()) && Verdict(errors == [], w, j)
      requires plan.EndpointRoute().dest in base.routes || !Reachable(os.egress, plan.EndpointRoute()) ==>
        |j.entries| == 1 && Live(j.entries[0]) && w.host.routes == base.routes && w.device.None?
      requires Misplaced(base, os.egress, plan) ==> UndoFailed(0) in errors && Stranded(base, os.egress, plan, Now())
      requires PinReady(base.routes, os.egress, plan) ==>
        (Taken(base.routes, j.entries) <==> DeviceReady(base.routes, plan, next) && !TunnelFree(base.routes, plan))
      requires errors != [] && |j.entries| == 1 ==> UndoFailed(0) in errors
      requires errors != [] ==> disk.Some? && SameRoutes(disk.value.entries, j.entries)
      ensures ConnectVerdict(base, os.egress, plan, next, verified, Failed(errors)) && LeftBehind(Failed(errors))
    {
      hide ValidJournal, Covers, Stranded, Removable, DeviceReady, TunnelFree, Favourable, ValidPlan, Realized, Checked;
      StartChecked(base, plan);
      if plan.EndpointRoute().dest in base.routes || !Reachable(os.egress, plan.EndpointRoute()) {
        PinOnly(w, j, errors == []);
        PinAbsent(base.routes, plan);
      } else if PinReady(base.routes, os.egress, plan) {
        AllLive(j);
        CleanExact(base, os.egress, w, j);
      }
    }

    /** What the rollback of a failed Connect came to, whatever had failed before: what is still live on disk could not
        be undone or written; each command that failed since leaves at most one such entry, unless a destination was
        taken; and if none failed, it is clean exactly if none was. */
    ghost predicate Recouped(errors: seq<RollbackError>)
      reads this, os, os.runner
    {
      && Charge(errors) <= os.runner.failed - failedBefore
      && (disk.Some? ==> Owed(disk.value, errors) && |disk.value.entries| <= |journal.entries|)
      && (disk.Some? && PinReady(base.routes, os.egress, plan) && !Taken(base.routes, journal.entries) ==>
            LiveCount(disk.value.entries) + Charge(errors) <= os.runner.failed - failedBefore)
      && (os.runner.failed == failedBefore && PinReady(base.routes, os.egress, plan) ==>
            (errors == [] <==> !Taken(base.routes, journal.entries)))
      && (os.runner.failed == failedBefore && plan.EndpointRoute().dest in base.routes ==>
            (errors == [] <==> Removable(base.routes, plan.EndpointRoute())))
    }

    lemma Recoups(w: World, j: Journal, errors: seq<RollbackError>)
      requires Accounts(base, os.egress, w, j) && j.plan == plan && (j.phase == Connecting || j.phase == Connected)
      requires Checked(base, plan) && SameRoutes(journal.entries, j.entries)
      requires Charge(errors) <= os.runner.failed - failedBefore
      requires j.entries != [] && j.entries[0].route == Some(plan.EndpointRoute())
      requires os.runner.failed == failedBefore ==> Verdict(errors == [], w, j)
      requires plan.EndpointRoute().dest in base.routes ==>
        |j.entries| == 1 && Live(j.entries[0]) && w.host.routes == base.routes && w.device.None?
      requires disk.Some? ==> Owed(disk.value, errors) && |disk.value.entries| <= |journal.entries|
      requires disk.Some? ==>
        Spared(disk.value, w.host.routes, j.entries, os.runner.failed - failedBefore - Charge(errors))
      ensures Recouped(errors)
    {
      hide ValidJournal, Covers, Removable, ValidPlan, Checked, LiveCount, Owed;
      AllLive(j);
      if PinReady(base.routes, os.egress, plan) {
        CleanExact(base, os.egress, w, j);
      }
      if os.runner.failed == failedBefore && plan.EndpointRoute().dest in base.routes {
        PinOnly(w, j, errors == []);
      }
    }

    /** The rollback of a Connect that has failed. */
    method GiveUp() returns (errors: seq<RollbackError>)
      requires Ready() && guarded && (journal.phase == Connecting || journal.phase == Connected) && Checked(base, plan)
      requires journal.entries != [] && journal.entries[0].route == Some(plan.EndpointRoute())
      modifies this, os, os.runner
      ensures os.runner.Went()
      ensures Inv() && old(trace) <= trace && (device == old(device) || device.None?)
      ensures errors == [] ==> disk.None? && device.None? && os.dns == base.dns
      ensures errors == [] ==> os.routes == base.routes - {plan.EndpointRoute().dest}
      ensures errors == [] ==> (Now().host == base <==> !PinTwin(base.routes, plan))
      ensures errors != [] && errors != [DeleteJournal] ==> disk.Some?
      ensures os.runner.Quiet() || TunnelUndone(errors) ==> guarded
      ensures old(Stranded(base, os.egress, plan, Now())) ==>
        Stranded(base, os.egress, plan, Now()) && UndoFailed(0) in errors
      ensures os.runner.Quiet() ==> Verdict(errors == [], old(Now()), old(journal))
      ensures os.runner.Quiet() && errors != [] && |old(journal).entries| == 1 ==> UndoFailed(0) in errors
      ensures os.runner.Quiet() && errors != [] ==> disk.Some? && SameRoutes(disk.value.entries, old(journal).entries)
      ensures acts == old(acts) + Downwards(|old(journal).entries|) && SameRoutes(journal.entries, old(journal).entries)
      ensures failedBefore == old(os.runner.failed) && Charge(errors) <= os.runner.failed - failedBefore
      ensures disk.Some? ==> Owed(disk.value, errors) && |disk.value.entries| <= |journal.entries|
      ensures disk.Some? ==>
        Spared(disk.value, old(os.routes), old(journal).entries,
               os.runner.failed - failedBefore - Charge(errors))
    {
      hide ValidJournal, Covers, Behind, PinGuard, Run, Guarded, Checked, Settled, Rollable, ValidPlan, NoConflict,
        AllRecoverable, KeepsGuard, Stranded, Removable, UndoOrder, TunnelUndone, Verdict, Spared, Owed;
      ghost var from, w := journal, Now();
      AllLive(journal);
      AllInOrder(journal.entries, 0);
      errors := Rollback();
      if disk.Some? {
        KeptLonger(disk.value, journal);
      }
      KeepsUndisturbed(base, !os.runner.Quiet(), w, from);
      if errors == [] {
        assert from.entries[0].route.value.dest !in os.routes;
        CheckedFacts(base, plan);
        NoNetEffect(base.routes, os.routes, plan);
      }
    }
  }

  /** Nothing keeps the transaction from coming to the tunnel routes, and one of them finds its destination taken. */
  predicate Obstructed(base: HostState, eg: Egress, plan: Plan, next: DeviceHandle) {
    PinReady(base.routes, eg, plan) && DeviceReady(base.routes, plan, next) && !TunnelFree(base.routes, plan)
  }

  /** A failed Connect cannot clean up after itself: the endpoint has a host route that is not to be removed, or the
      kernel misplaces the pin, or a tunnel route finds its destination taken. */
  predicate Sticks(base: HostState, eg: Egress, plan: Plan, next: DeviceHandle) {
    || (plan.EndpointRoute().dest in base.routes && !Removable(base.routes, plan.EndpointRoute()))
    || Misplaced(base, eg, plan) || Obstructed(base, eg, plan, next)
  }

  /** What an undisturbed Connect comes to. */
  ghost predicate ConnectVerdict(base: HostState, eg: Egress, plan: Plan, next: DeviceHandle, verified: bool,
                                 r: ConnectResult)
  {
    && !r.Refused? && (r.Up? <==> verified && Favourable(base, eg, plan, next))
    && (r == Failed([]) <==> !r.Up? && !Sticks(base, eg, plan, next))
  }

  predicate SameRoutes(es: seq<Entry>, es': seq<Entry>) {
    |es| == |es'| && forall k :: 0 <= k < |es| ==> es[k].route == es'[k].route
  }

  lemma AllLive(j: Journal)
    requires ValidJournal(j) && (j.phase == Connecting || j.phase == Connected)
    ensures forall k :: 0 <= k < |j.entries| ==> Live(j.entries[k])
  {
  }

  /** Where nothing stands there is nothing to remove. */
  lemma PinAbsent(base: Table, plan: Plan)
    requires ValidPlan(plan)
    ensures plan.EndpointRoute().dest !in base ==> Removable(base, plan.EndpointRoute())
  {
    hide ValidPlan, ValidRoute;
    PlannedRouteValid(plan, None, 0);
  }

  /** The last entry is live and for this route. */
  predicate EndsWith(j: Journal, route: Route) {
    && j.entries != [] && Live(j.entries[|j.entries| - 1])
    && j.entries[|j.entries| - 1].route == Some(route)
  }

  /** A step for a route: it stops where something stands at the destination or the gateway cannot be reached, and
      undisturbed it stops nowhere else unless the kernel misplaces the route. */
  ghost predicate RouteDecided(eg: Egress, flaky: bool, t: Table, r: Route, t': Table, ok: bool) {
    && (r.dest in t || !Reachable(eg, r) ==> !ok && t' == t)
    && (ok ==> r.dest !in t && Wired(eg, r) && t' == t[r.dest := r])
    && (!flaky && r.dest !in t && Wired(eg, r) ==> ok && t' == t[r.dest := r])
    && (!flaky && r.dest !in t && Reachable(eg, r) && !Wired(eg, r) ==> !ok && t' == t[r.dest := Realized(eg, r)])
  }

  lemma NotTried(eg: Egress, t: Table, r: Route)
    ensures RouteDecided(eg, true, t, r, t, false)
  {
  }

  lemma DecidedAnyway(eg: Egress, flaky: bool, t: Table, r: Route, t': Table, ok: bool)
    requires RouteDecided(eg, flaky, t, r, t', ok)
    ensures RouteDecided(eg, true, t, r, t', ok)
  {
  }

  lemma AddDecides(eg: Egress, flaky: bool, t: Table, r: Route, t': Table, ok: bool)
    requires AddOutcome(eg, flaky, t, r, t', ok) && ValidRoute(r) && Expressible(r)
    ensures RouteDecided(eg, flaky, t, r, t', ok) && RouteDecided(eg, true, t, r, t', ok)
    ensures RouteDecided(eg, true, t, r, t', false)
  {
    hide ValidRoute, Expressible;
  }

  lemma LastTaken(base: Table, es: seq<Entry>, k: nat)
    requires k < |es|
    ensures es[k].route.Some? && es[k].route.value.dest in base ==> Taken(base, es)
  {
  }

  /** The endpoint has no host route yet, and the kernel would not place the pin where it is planned. */
  predicate Misplaced(base: HostState, eg: Egress, plan: Plan) {
    plan.EndpointRoute().dest !in base.routes && Reachable(eg, plan.EndpointRoute()) && !Wired(eg, plan.EndpointRoute())
  }

  lemma NowStranded(base: HostState, eg: Egress, plan: Plan, w: World)
    requires Misplaced(base, eg, plan) && w.device.None?
    requires w.host.routes == base.routes[plan.EndpointRoute().dest := Realized(eg, plan.EndpointRoute())]
    ensures Stranded(base, eg, plan, w)
  {
  }

  lemma StartChecked(base: HostState, plan: Plan)
    requires Startable(base, plan)
    ensures Checked(base, plan) && ValidPlan(plan)
  {
  }

  lemma FavourableStart(base: HostState, eg: Egress, plan: Plan, next: DeviceHandle)
    requires Favourable(base, eg, plan, next)
    ensures Startable(base, plan)
  {
  }

  /** What a successful Connect has put up can all be removed. */
  lemma UpRemovable(base: HostState, eg: Egress, w: World, j: Journal)
    requires Accounts(base, eg, w, j) && j.phase == Connected && Established(base, w, j.plan) && w.device == j.device
    requires Checked(base, j.plan) && PinReady(base.routes, eg, j.plan)
    ensures AllRemovable(w.host.routes, j.entries)
  {
    hide Covers, Checked, PinReady, Removable, ValidHeader, Unused, ValidDevice;
    AllLive(j);
    forall k | 0 <= k < |j.entries| && j.entries[k].route.Some? ensures j.entries[k].route.value.dest !in base.routes {
      EntryRoute(j, k);
    }
    hide ValidJournal, Established;
    CleanExact(base, eg, w, j);
  }

  lemma KeepsLess(base: HostState, flaky: bool, flaky': bool, w: World, j: Journal)
    requires flaky' ==> flaky
    ensures KeepsGuard(base, flaky, w, j) ==> KeepsGuard(base, flaky', w, j)
  {
    hide TunnelStands, PinLoose;
  }

  lemma KeepsUndisturbed(base: HostState, flaky: bool, w: World, j: Journal)
    ensures !flaky ==> KeepsGuard(base, flaky, w, j)
  {
  }

  /** A journal that names only the pin is rolled back exactly if the pin can be removed. */
  lemma PinOnly(w: World, j: Journal, ok: bool)
    requires |j.entries| == 1 && Live(j.entries[0]) && j.entries[0].route.Some? && w.device.None?
    requires Verdict(ok, w, j) && j.phase != ForeignConflict
    ensures ok <==> Removable(w.host.routes, j.entries[0].route.value)
  {
    hide Removable;
    assert AllRemovable(w.host.routes, j.entries) ==> EntryRemovable(w.host.routes, j.entries[0]);
  }
}
