/** The user's side of a connection: a small metadata file that remembers which session may own something on the
    host, and the helper calls around it (internal/connection/service.go, internal/connection/state.go,
    internal/helperdaemon/daemon.go).

    The helper's calls run the tunnel transaction itself, so what holds here holds of the host and not only of the
    record. A helper may die during a call or between calls, and its reply may be lost. */
module Connection {
  import opened Net
  import opened Faults
  import opened TunnelModel
  import opened DarwinNet
  import opened TunnelProtocol
  import opened TunnelRollback
  import opened TunnelController
  import opened TunnelLifetime

  datatype Metadata = Metadata(
    schemaVersion: int, sessionId: string, server: string, country: string, city: string, phase: string, createdAt: int)

  predicate ValidMetadata(m: Metadata) {
    && m.schemaVersion == 1 && ValidSessionID(m.sessionId) && m.server != "" && m.createdAt != 0
    && (m.phase == "connecting" || m.phase == "connected")
  }

  /** Journals are kept per session. */
  type Journals = map<string, Journal>

  function Get(js: Journals, id: string): Option<Journal> { if id in js then Some(js[id]) else None }

  function Put(js: Journals, id: string, j: Option<Journal>): Journals {
    if j.Some? then js[id := j.value] else js - {id}
  }

  /** Everything that outlives a call: the record, the journals, the host and the helper's device. */
  datatype Machine = Machine(
    metadata: Option<Metadata>, journals: Journals, host: HostState, device: Option<DeviceHandle>)

  function WorldOf(m: Machine, id: string): World { World(m.host, m.device, Get(m.journals, id)) }

  /** A journal is only ever the recorded session's, and the host can be recovered from it to `base`. */
  ghost predicate Accounted(base: HostState, eg: Egress, plan: Plan, uid: int, m: Machine) {
    && (m.metadata.Some? ==> ValidMetadata(m.metadata.value))
    && (forall id :: id in m.journals ==> m.metadata.Some? && m.metadata.value.sessionId == id && plan.sessionId == id)
    && (m.journals != map[] ==> plan.ownerUid == uid)
    && NotForeign(Get(m.journals, plan.sessionId))
    && Recoverable(base, eg, plan, WorldOf(m, plan.sessionId))
  }

  datatype Reading = Unreadable | NotExist | Read(metadata: Metadata)

  datatype Result = Result(state: string, sessionId: string, server: string, country: string, city: string)
  datatype Outcome = Error | AlreadyConnected | HelperFailed(result: Result) | Done(result: Result)

  const NO_RESULT := Result("", "", "", "", "")

  function ResultOf(metadata: Metadata, state: string): Result {
    Result(state, metadata.sessionId, metadata.server, metadata.country, metadata.city)
  }

  /** What the recommender is asked for. */
  datatype Query = Query(country: string, city: string)

  /** What the recommender, the credential store, the physical route, the clock, the kernel and the verifier would
      give next. */
  datatype Choice = Choice(
    plan: Plan, server: string, country: string, city: string, now: int, next: DeviceHandle, verified: bool)

  /** What goes on record for it. */
  function Record(choice: Choice, phase: string): Metadata {
    Metadata(1, choice.plan.sessionId, choice.server, choice.country, choice.city, phase, choice.now)
  }

  /** The choice can be recorded. */
  predicate Recordable(choice: Choice) { ValidPlan(choice.plan) && choice.server != "" && choice.now != 0 }

  /** On this host nothing stands in the way of the choice. */
  ghost predicate Promising(host: HostState, eg: Egress, choice: Choice) {
    choice.server != "" && choice.now != 0 && choice.verified && Favourable(host, eg, choice.plan, choice.next)
  }

  /** A machine without a session after a session was to begin on it: the record is that of the choice, and if no
      command failed, it and the host decide the rest. */
  ghost predicate Began(quiet: bool, eg: Egress, m: Machine, choice: Choice, m': Machine) {
    && (m'.metadata.None? ==> m' == m)
    && (m'.metadata.Some? ==>
          && Recordable(choice)
          && (m'.metadata == Some(Record(choice, "connecting")) || m'.metadata == Some(Record(choice, "connected"))))
    && (quiet ==> (m'.metadata.Some? <==> Recordable(choice)))
    && (quiet ==> (m'.metadata == Some(Record(choice, "connected")) <==> Promising(m.host, eg, choice)))
    && (quiet && Promising(m.host, eg, choice) ==>
          Established(m.host, WorldOf(m', choice.plan.sessionId), choice.plan))
    && (quiet && Recordable(choice) && !Promising(m.host, eg, choice) ==>
          (m'.journals == map[] <==> !Startable(m.host, choice.plan) || !Sticks(m.host, eg, choice.plan, choice.next)))
  }

  /** A machine after its session was to end: if no command failed, the routes in the journal decide. */
  ghost predicate Ended(quiet: bool, m: Machine, m': Machine) {
    && (m'.metadata == m.metadata || m' == Machine(None, map[], m'.host, None))
    && (m.metadata.None? ==> m' == m)
    && (m.journals == map[] ==> m'.journals == map[] && m'.host == m.host && (quiet ==> m'.metadata.None?))
    && (quiet && m.metadata.Some? && m.metadata.value.sessionId in m.journals ==>
          var id := m.metadata.value.sessionId; Verdict(m'.metadata.None?, WorldOf(m, id), m.journals[id]))
  }

  lemma Anyway(eg: Egress, m: Machine, choice: Choice, m': Machine, quiet: bool)
    ensures Began(quiet, eg, m, choice, m') ==> Began(false, eg, m, choice, m')
    ensures Ended(quiet, m, m') ==> Ended(false, m, m')
  {
    hide Promising, Recordable, Verdict;
  }

  /** A machine after its session was to end and another to begin: the recommender is asked for the place on record, and
      the other begins only once the first has ended. */
  ghost predicate Replaced(quiet: bool, eg: Egress, m: Machine, recommend: Query -> Choice, m': Machine)
    requires m.metadata.Some?
  {
    var choice := recommend(Query(m.metadata.value.country, m.metadata.value.city));
    exists between ::
      && Ended(quiet, m, between)
      && (|| (m' == between && (quiet ==> between.metadata.Some?))
          || (between.metadata.None? && Began(quiet, eg, between, choice, m')))
  }

  /** What the helper is asked for. */
  datatype Request = ConnectRequest(plan: Plan) | DisconnectRequest(sessionId: string)

  class Service {
    var m: Machine
    /** The requests to the helper so far. */
    var asked: seq<Request>
    const eg: Egress
    const uid: int
    const runner: Runner
    /** The host before the session, and the session's plan. */
    var base: HostState
    var plan: Plan

    constructor (m: Machine, eg: Egress, uid: int, runner: Runner, base: HostState, plan: Plan)
      requires Accounted(base, eg, plan, uid, m)
      ensures this.m == m && this.eg == eg && this.uid == uid && this.runner == runner && this.base == base
      ensures this.plan == plan && asked == []
    {
      this.m, this.eg, this.uid, this.runner, this.base, this.plan := m, eg, uid, runner, base, plan;
      this.asked := [];
    }

    ghost predicate Inv()
      reads this
    {
      Accounted(base, eg, plan, uid, m)
    }

    /** The recorded session can be undone without a trace. */
    ghost predicate Reversible()
      reads this
    {
      Unblocked(base.routes, plan) && Wired(eg, plan.EndpointRoute()) && Twinless(base.routes, plan)
    }

    // ---------- the metadata file ----------

    method LoadMetadata() returns (r: Reading)
      modifies runner
      ensures runner.Went()
      ensures r.NotExist? ==> m.metadata.None?
      ensures r.Read? ==> m.metadata == Some(r.metadata) && ValidMetadata(r.metadata)
      ensures r.Unreadable? <==> !runner.Quiet() || (m.metadata.Some? && !ValidMetadata(m.metadata.value))
    {
      var ok := runner.Attempt();
      if !ok {
        return Unreadable;
      }
      if m.metadata.None? {
        return NotExist;
      }
      if !ValidMetadata(m.metadata.value) {
        return Unreadable;
      }
      return Read(m.metadata.value);
    }

    /** Replaces the record, whatever it was. If it was of no session or of the same one, nothing is lost sight of. */
    method SaveMetadata(metadata: Metadata) returns (ok: bool)
      modifies this`m, runner
      ensures runner.Went()
      ensures m == old(m).(metadata := m.metadata)
      ensures m.metadata == old(m).metadata || (ValidMetadata(metadata) && m.metadata == Some(metadata))
      ensures ok ==> m.metadata == Some(metadata)
      ensures old(Inv()) && (old(m).metadata.Some? ==> old(m).metadata.value.sessionId == metadata.sessionId) ==> Inv()
      ensures ok <==> ValidMetadata(metadata) && runner.Quiet()
    {
      hide Recoverable, ValidMetadata;
      if !ValidMetadata(metadata) {
        return false;
      }
      var took: bool;
      took, ok := runner.Effect();
      if took {
        m := m.(metadata := Some(metadata));
      }
    }

    /** Forgets the session, whether or not it has a journal. If it has none, nothing is lost sight of. */
    method DeleteMetadata() returns (ok: bool)
      modifies this`m, runner
      ensures runner.Went()
      ensures m == old(m).(metadata := m.metadata)
      ensures m.metadata == old(m).metadata || m.metadata.None?
      ensures ok ==> m.metadata.None?
      ensures old(Inv()) && old(m).journals == map[] ==> Inv()
      ensures ok <==> runner.Quiet()
    {
      hide Recoverable, ValidMetadata;
      var took: bool;
      took, ok := runner.Effect();
      if took {
        m := m.(metadata := None);
      }
    }

    // ---------- the helper ----------

    /** The helper process that owns the device dies, if there is one. */
    method HelperDies(kept: set<Prefix>)
      requires Inv()
      modifies this`m
      ensures Inv() && m == Bereft(old(m), kept) && (old(m).device.None? ==> m == old(m))
    {
      hide Recoverable;
      ghost var was := m;
      m := Bereft(m, kept);
      CrashKeeps(base, eg, plan, WorldOf(was, plan.sessionId), WorldOf(m, plan.sessionId));
    }

    /** The helper process that owns the device ends: it disconnects once more, with what success it may, unless it dies
        at some step of that. */
    method HelperExits(step: Option<nat>, kept: set<Prefix>)
      requires Inv()
      modifies this`m, runner
      ensures runner.Went()
      ensures Inv() && m.metadata == old(m).metadata && Exited(runner.Quiet(), old(m), step, m)
    {
      hide Recoverable, Run, Linked, Guarded, Behind, LiveCount, Settled, AllRecoverable, KeepsGuard, Stranded, Verdict,
        ValidMetadata, Owed, Spared, UndoOrder, Apart, AllRemovable;
      if m.journals == map[] {
        NothingLeft(base, eg, plan, WorldOf(m, plan.sessionId));
        return;
      }
      RecordedPlan();
      var c := Process(m.device);
      OwnerOf(base, eg, plan, c.Now());
      ghost var j := c.disk.value;
      var ok, errors := c.Disconnect(plan.sessionId, uid);
      Settle(c, true, if step.Some? then step.value else |c.trace|, kept);
    }

    /** If there is a journal it is that of the recorded session, of this plan and of this user. */
    lemma RecordedPlan()
      requires Inv() && m.journals != map[]
      ensures m.metadata.Some? && ValidMetadata(m.metadata.value)
      ensures m.metadata.value.sessionId == plan.sessionId && plan.ownerUid == uid
      ensures m.journals.Keys == {plan.sessionId} && NotForeign(Get(m.journals, plan.sessionId))
    {
      hide Recoverable, ValidMetadata;
      assert m.journals.Keys != {};
      var id :| id in m.journals;
      assert id in m.journals.Keys;
    }

    /** A helper process on the machine as it stands. */
    method Process(device: Option<DeviceHandle>) returns (c: Controller)
      requires Inv() && device == m.device
      ensures fresh(c) && fresh(c.os) && c.Inv() && c.base == base && c.plan == plan && c.os.egress == eg
      ensures c.os.runner == runner && c.acts == []
      ensures c.Now() == WorldOf(m, plan.sessionId) && c.trace[0] == c.Now()
    {
      hide Recoverable;
      var w := WorldOf(m, plan.sessionId);
      OnlySurface(base, eg, plan, w, {w.disk});
      var os := new Host(m.host.routes, m.host.dns, eg, runner);
      var next: DeviceHandle := *;
      c := new Controller(os, device, w.disk, {w.disk}, next, base, plan);
    }

    /** What a helper process leaves: everything it did, or, if it died at a step, what it had done by then. */
    method Settle(c: Controller, dies: bool, step: nat, kept: set<Prefix>)
      requires c.Inv() && c.base == base && c.plan == plan && c.os.egress == eg && NotForeign(c.trace[0].disk)
      requires m.metadata.Some? && ValidMetadata(m.metadata.value)
      requires m.metadata.value.sessionId == plan.sessionId && plan.ownerUid == uid
      requires m.journals == map[] || m.journals.Keys == {plan.sessionId}
      modifies this`m
      ensures Inv() && m.metadata == old(m).metadata && m.journals.Keys <= {plan.sessionId}
      ensures WorldOf(m, plan.sessionId) ==
        if dies then Remains(c.trace[LastStep(c.trace, step)], kept) else c.Now()
    {
      hide Recoverable, Run, Linked, Guarded, ValidMetadata, AllRecoverable, Remains;
      var w := c.Now();
      if dies {
        var maybe, run;
        w, maybe, run := DieAlone(c, step, kept);
        RunAt(base, eg, plan, run, |run| - 1);
        NeverForeign(base, eg, plan, run, |run| - 1);
      } else {
        RunAt(base, eg, plan, c.trace, |c.trace| - 1);
        NeverForeign(base, eg, plan, c.trace, |c.trace| - 1);
      }
      m := m.(journals := Put(m.journals, m.metadata.value.sessionId, w.disk), host := w.host, device := w.device);
    }

    /** The connect call. It answers yes only when the tunnel is up. A helper that is not up ends; one whose reply does
        not come may have died on the way or live on. */
    method CallConnect(choice: Choice) returns (reply: Option<bool>)
      requires Inv() && m.journals == map[] && choice.plan.ownerUid == uid
      requires m.metadata.Some? && m.metadata.value.sessionId == choice.plan.sessionId
      modifies this`m, this`asked, this`base, this`plan, runner
      ensures runner.Went() && asked == old(asked) + [ConnectRequest(choice.plan)]
      ensures Inv() && m.metadata == old(m).metadata && plan == choice.plan && base == old(m).host
      ensures reply == Some(true) ==> choice.verified && choice.now != 0
      ensures reply == Some(true) ==> Favourable(base, eg, plan, choice.next) && IsUp(m, base, plan)
      ensures runner.Quiet() ==> (reply == Some(true) <==>
        choice.verified && choice.now != 0 && Favourable(base, eg, plan, choice.next))
      ensures runner.Quiet() && choice.now != 0 && reply != Some(true) ==>
        (m.journals == map[] <==> !Startable(base, plan) || !Sticks(base, eg, plan, choice.next))
    {
      hide Recoverable, Run, Linked, Guarded, ValidMetadata, Established, Favourable, AllRecoverable, Startable, Sticks,
        Remains, IsUp;
      asked := asked + [ConnectRequest(choice.plan)];
      NothingLeft(base, eg, plan, WorldOf(m, plan.sessionId));
      base, plan := m.host, choice.plan;
      var c, r := ConnectOnce(choice);
      var replied := runner.Attempt();
      var dies, step: nat, kept: set<Prefix> := !r.Up?, |c.trace|, {};
      if !replied {
        dies, step, kept := *, *, *;
      }
      Settle(c, dies, step, kept);
      RemainsDisk(c.Now(), kept);
      if r.Up? && replied {
        UpIs(c);
      }
      reply := if replied then Some(r.Up?) else None;
    }

    /** A helper process that connects. */
    method ConnectOnce(choice: Choice) returns (c: Controller, r: ConnectResult)
      requires base == m.host && plan == choice.plan
      modifies runner
      ensures runner.Went()
      ensures fresh(c) && fresh(c.os) && c.Inv() && c.base == base && c.plan == plan && c.os.egress == eg
      ensures c.next == choice.next && c.trace[0] == World(base, None, None)
      ensures r.Up? ==> c.disk == Some(c.journal) && c.journal.phase == Connected && c.device == c.journal.device
      ensures r.Up? ==> Established(base, c.Now(), plan) && Favourable(base, eg, plan, choice.next)
      ensures r.Up? ==> choice.verified && choice.now != 0
      ensures runner.Quiet() && choice.verified && choice.now != 0 && Favourable(base, eg, plan, choice.next) ==> r.Up?
      ensures runner.Quiet() && choice.now != 0 && !r.Up? ==>
        (c.disk.None? <==> !Startable(base, plan) || !Sticks(base, eg, plan, choice.next))
    {
      hide Recoverable, Run, Linked, Guarded, Established, Favourable, AllRecoverable, Startable, Stranded, Sticks,
        Controller.LeftBehind, Controller.Recouped;
      if Favourable(base, eg, plan, choice.next) {
        FavourableStart(base, eg, plan, choice.next);
      }
      c := FirstProcessWith(base, eg, runner, plan, choice.next);
      r := c.Connect(choice.plan, choice.now, choice.verified);
    }

    lemma RemainsDisk(w: World, kept: set<Prefix>)
      ensures Remains(w, kept).disk == w.disk
    {
    }

    /** A tunnel that is up is on record and can be undone. */
    lemma UpIs(c: Controller)
      requires c.Inv() && c.base == base && c.plan == plan && c.os.egress == eg && c.disk == Some(c.journal)
      requires c.journal.phase == Connected && c.device == c.journal.device && Established(base, c.Now(), plan)
      requires WorldOf(m, plan.sessionId) == c.Now() && Favourable(base, eg, plan, c.next)
      ensures IsUp(m, base, plan)
    {
      hide Recoverable, Run, Guarded, AllRecoverable, Established, Accounts, AllRemovable;
      c.NowRecoverable();
      FoundOnDisk(base, eg, plan, c.Now());
      FavourableStart(base, eg, plan, c.next);
      StartChecked(base, plan);
      UpRemovable(base, eg, c.Now(), c.journal);
    }

    /** The disconnect call, to the helper that is still there, or, if that does not answer, to a new one. It answers
        yes only when the session's rollback is complete. */
    method CallDisconnect(sessionId: string) returns (reply: Option<bool>)
      requires Inv() && m.metadata.Some? && m.metadata.value.sessionId == sessionId
      modifies this`m, this`asked, runner
      ensures runner.Went() && asked == old(asked) + [DisconnectRequest(sessionId)]
      ensures Inv() && m.metadata == old(m).metadata
      ensures reply == Some(true) ==> m.journals == map[]
      ensures old(m).journals == map[] ==> m == old(m)
      ensures runner.Quiet() ==> reply.Some? && (old(m).journals == map[] ==> reply == Some(true))
      ensures runner.Quiet() && sessionId in old(m).journals ==>
        Verdict(reply == Some(true), old(WorldOf(m, sessionId)), old(m).journals[sessionId])
      ensures runner.Quiet() && Undoable(base, eg, plan) ==> reply == Some(true)
    {
      hide Recoverable, Run, Linked, Guarded, Behind, LiveCount, Settled, Unblocked, Wired, AllRecoverable, KeepsGuard,
        Stranded, Verdict, ValidMetadata, Owed, Spared, UndoOrder, Apart, AllRemovable, Remains;
      asked := asked + [DisconnectRequest(sessionId)];
      if sessionId !in m.journals {
        // Nothing to roll back: the controller finds no journal.
        var ok := runner.Attempt();
        return if ok then Some(true) else None;
      }
      var alive := runner.Attempt();
      if !alive {
        var kept: set<Prefix> := *;
        HelperDies(kept);
      }
      RecordedPlan();
      var c, ok := DisconnectOnce();
      var replied := runner.Attempt();
      var dies, step: nat, kept: set<Prefix> := false, 0, {};
      if !replied {
        dies, step, kept := *, *, *;
      }
      Settle(c, dies, step, kept);
      return if replied then Some(ok) else None;
    }

    /** A helper process that disconnects. */
    method DisconnectOnce() returns (c: Controller, ok: bool)
      requires Inv() && m.journals != map[]
      modifies runner
      ensures runner.Went() && fresh(c) && fresh(c.os) && c.Inv()
      ensures c.base == base && c.plan == plan && c.os.egress == eg && c.trace[0] == WorldOf(m, plan.sessionId)
      ensures ok ==> c.disk.None?
      ensures runner.Quiet() ==>
        Verdict(ok, WorldOf(m, plan.sessionId), m.journals[plan.sessionId]) && (Undoable(base, eg, plan) ==> ok)
    {
      hide Recoverable, Run, Linked, Guarded, Behind, LiveCount, Settled, Unblocked, Wired, AllRecoverable, KeepsGuard,
        Stranded, Verdict, ValidMetadata, Owed, Spared, UndoOrder, Apart, AllRemovable;
      RecordedPlan();
      c := Process(m.device);
      OwnerOf(base, eg, plan, c.Now());
      var errors;
      ok, errors := c.Disconnect(plan.sessionId, uid);
    }

    // ---------- the operations ----------

    method ConnectLocked(choice: Choice) returns (r: Outcome)
      requires Inv() && choice.plan.ownerUid == uid
      modifies this`m, this`asked, this`base, this`plan, runner
      ensures runner.Went()
      ensures Inv()
      // A recorded session is never displaced.
      ensures old(m).metadata.Some? ==> m == old(m) && (r.AlreadyConnected? || (r.Error? && !runner.Quiet()))
      ensures old(m).metadata.None? ==> Began(runner.Quiet(), eg, old(m), choice, m)
      ensures r.Done? ==> m.metadata == Some(Record(choice, "connected"))
      ensures r.Done? ==> r.result == ResultOf(Record(choice, "connected"), "connected")
      ensures r.Done? ==> base == old(m).host && plan == choice.plan && IsUp(m, base, plan)
      ensures old(m).metadata.None? && runner.Quiet() ==> (r.Done? <==> Promising(old(m).host, eg, choice))
      // The helper is asked to connect once, and to disconnect only if the second record fails.
      ensures r.AlreadyConnected? ==> asked == old(asked)
      ensures r.Done? || r.HelperFailed? ==> asked == old(asked) + [ConnectRequest(choice.plan)]
      ensures r.Error? && asked != old(asked) ==>
        asked == old(asked) + [ConnectRequest(choice.plan), DisconnectRequest(choice.plan.sessionId)]
      // Either nothing was tried, or the new session starts from the host as it was found.
      ensures || (base == old(base) && plan == old(plan) && m.host == old(m).host && m.journals == old(m).journals)
              || (base == old(m).host && plan == choice.plan && old(m).journals == map[])
      // A tunnel whose second record fails is taken down again, unless that fails too.
      ensures old(m).metadata.None? && r.Error? && runner.failed <= old(runner.failed) + 1 ==> m.journals == map[]
      // A failure that may have left something behind is remembered.
      ensures m.journals != map[] ==> m.metadata.Some?
    {
      hide Accounted, Established, Favourable, ValidPlan, ValidSessionID, Startable, Sticks, Verdict, IsUp, Undoable;
      AccountedFacts(base, eg, plan, uid, m);
      if Promising(m.host, eg, choice) {
        PromisingFacts(m.host, eg, choice);
      }
      var loaded := LoadMetadata();
      if loaded.Read? {
        return AlreadyConnected;
      }
      if loaded.Unreadable? {
        return Error;
      }
      var ready := runner.Attempt();
      var planOk := ValidatePlan(choice.plan);
      if !ready || !planOk {
        return Error;
      }
      PlanSession(choice.plan);
      var metadata :=
        Metadata(1, choice.plan.sessionId, choice.server, choice.country, choice.city, "connecting", choice.now);
      var saved := SaveMetadata(metadata);
      if !saved {
        return Error;
      }
      var reply := CallConnect(choice);
      AccountedFacts(base, eg, plan, uid, m);
      if reply != Some(true) {
        return HelperFailed(NO_RESULT);
      }
      r := Confirm(choice);
      AccountedFacts(base, eg, plan, uid, m);
    }

    /** Records that the tunnel is up, or takes it down again. */
    method Confirm(choice: Choice) returns (r: Outcome)
      requires Inv() && plan == choice.plan && IsUp(m, base, plan)
      requires m.metadata == Some(Record(choice, "connecting")) && ValidMetadata(Record(choice, "connected"))
      modifies this`m, this`asked, runner
      ensures runner.Went()
      ensures Inv() && (r.Error? || r == Done(ResultOf(Record(choice, "connected"), "connected")))
      ensures m.metadata == old(m).metadata || m.metadata == Some(Record(choice, "connected"))
      ensures r.Done? ==> asked == old(asked) && m == old(m).(metadata := Some(Record(choice, "connected")))
      ensures r.Done? ==> IsUp(m, base, plan) && Established(base, WorldOf(m, plan.sessionId), plan)
      ensures r.Done? <==> runner.Quiet()
      ensures r.Error? ==> asked == old(asked) + [DisconnectRequest(plan.sessionId)]
      ensures r.Error? && runner.failed <= old(runner.failed) + 1 ==> m.journals == map[]
    {
      hide Accounted, Established, ValidPlan, ValidSessionID, Verdict, IsUp, Undoable;
      var metadata := m.metadata.value.(phase := "connected");
      ghost var up := m;
      var saved := SaveMetadata(metadata);
      SameUp(up, m, base, plan);
      IsUpFacts(m, base, plan);
      if !saved {
        var cleanup := CallDisconnect(metadata.sessionId);
        AccountedFacts(base, eg, plan, uid, m);
        return Error;
      }
      return Done(ResultOf(metadata, "connected"));
    }

    method DisconnectLocked() returns (r: Outcome)
      requires Inv()
      modifies this`m, this`asked, runner
      ensures runner.Went()
      ensures Inv() && (m.metadata == old(m).metadata || m.metadata.None?)
      // The record goes away only after the rollback: the host is given back.
      ensures m.metadata.None? ==>
        m.journals == map[] && m.device.None? && m.host.dns == base.dns && Settled(base.routes, m.host.routes, plan)
      ensures r.Done? ==> m.metadata.None? && r.result == NO_RESULT.(state := "disconnected")
      ensures r.HelperFailed? ==>
        old(m).metadata.Some? && r.result == ResultOf(old(m).metadata.value, "rollback_required")
      ensures Ended(runner.Quiet(), old(m), m) && (runner.Quiet() ==> (m.metadata.None? <==> r.Done?))
      // The helper is asked at most once, and always before the record goes.
      ensures || (asked == old(asked) && m == old(m) && !r.HelperFailed?)
              || (old(m).metadata.Some? && asked == old(asked) + [DisconnectRequest(old(m).metadata.value.sessionId)])
      ensures runner.Quiet() && (old(m).journals == map[] || Undoable(base, eg, plan)) ==> r.Done?
    {
      hide Accounted, Settled, Undoable, Verdict;
      AccountedFacts(base, eg, plan, uid, m);
      var loaded := LoadMetadata();
      if loaded.NotExist? {
        return Done(NO_RESULT.(state := "disconnected"));
      }
      if loaded.Unreadable? {
        return Error;
      }
      var reply := CallDisconnect(loaded.metadata.sessionId);
      AccountedFacts(base, eg, plan, uid, m);
      if reply != Some(true) {
        return HelperFailed(ResultOf(loaded.metadata, "rollback_required"));
      }
      var deleted := DeleteMetadata();
      AccountedFacts(base, eg, plan, uid, m);
      return if deleted then Done(NO_RESULT.(state := "disconnected")) else Error;
    }

    /** `recommend` is what the recommender would choose for each place. */
    method Reconnect(isFresh: bool, recommend: Query -> Choice) returns (r: Outcome)
      requires Inv() && forall q :: recommend(q).plan.ownerUid == uid
      modifies this`m, this`asked, this`base, this`plan, runner
      ensures runner.Went()
      ensures Inv()
      ensures if isFresh && old(m).metadata.Some? then Replaced(runner.Quiet(), eg, old(m), recommend, m)
              else m == old(m) && asked == old(asked)
      ensures r.Done? ==> old(m).metadata.Some?
      ensures r.Done? ==>
        var choice := recommend(PlaceOf(old(m)));
        && m.metadata == Some(Record(choice, "connected")) && plan == choice.plan && IsUp(m, base, plan)
        && r.result == ResultOf(Record(choice, "connected"), "connected")
      ensures r.Done? ==> asked == old(asked) + [DisconnectRequest(old(m).metadata.value.sessionId),
                                                 ConnectRequest(recommend(PlaceOf(old(m))).plan)]
      // The new session starts from what the old one gave back.
      ensures || (base == old(base) && plan == old(plan)
                  && (old(m).journals == map[] ==> m.host == old(m).host && m.journals == map[]))
              || (old(m).metadata.Some? && plan == recommend(PlaceOf(old(m))).plan
                  && base.dns == old(base).dns && Settled(old(base).routes, base.routes, old(plan))
                  && (old(m).journals == map[] ==> base == old(m).host))
      // Undisturbed, it ends the old session and starts the new one.
      ensures runner.Quiet() && isFresh && old(m).metadata.Some? && old(Reversible()) ==>
        Promising(old(base), eg, recommend(PlaceOf(old(m)))) ==> r.Done?
    {
      hide Accounted, Established, Settled, Unblocked, Wired, Promising, Twinless, Verdict, Began, IsUp;
      if !isFresh {
        return Error;
      }
      AccountedFacts(base, eg, plan, uid, m);
      var loaded := LoadMetadata();
      if !loaded.Read? {
        EndedSame(m);
        return Error;
      }
      var query := Query(loaded.metadata.country, loaded.metadata.city);
      ghost var failed := runner.failed;
      r := DisconnectLocked();
      ghost var between, quiet := m, runner.failed == failed;
      Anyway(eg, old(m), recommend(query), between, quiet);
      if !r.Done? {
        AccountedFacts(base, eg, plan, uid, m);
        return Error;
      }
      if Twinless(base.routes, plan) {
        SettledTwinless(base.routes, m.host.routes, plan);
        assert m.host == base;
      }
      failed := runner.failed;
      r := ConnectLocked(recommend(query));
      Anyway(eg, between, recommend(query), m, runner.failed == failed);
      AccountedFacts(base, eg, plan, uid, m);
      assert Ended(runner.Quiet(), old(m), between);
    }
  }

  /** The place on record. */
  function PlaceOf(m: Machine): Query
    requires m.metadata.Some?
  {
    Query(m.metadata.value.country, m.metadata.value.city)
  }

  /** The machine is as the death of its helper leaves it. */
  function Bereft(m: Machine, kept: set<Prefix>): Machine {
    m.(host := Remains(WorldOf(m, ""), kept).host, device := None)
  }

  /** The tunnel of the plan stands, is on record and can be undone. */
  ghost predicate IsUp(m: Machine, base: HostState, plan: Plan) {
    && Established(base, WorldOf(m, plan.sessionId), plan) && plan.sessionId in m.journals
    && m.journals[plan.sessionId].phase == Connected
    && AllRemovable(m.host.routes, m.journals[plan.sessionId].entries)
  }

  lemma IsUpFacts(m: Machine, base: HostState, plan: Plan)
    requires IsUp(m, base, plan)
    ensures plan.sessionId in m.journals && Established(base, WorldOf(m, plan.sessionId), plan)
    ensures forall ok :: Verdict(ok, WorldOf(m, plan.sessionId), m.journals[plan.sessionId]) ==> ok
  {
    hide AllRemovable, Established;
  }

  lemma SameUp(was: Machine, m: Machine, base: HostState, plan: Plan)
    requires m == was.(metadata := m.metadata)
    ensures IsUp(m, base, plan) == IsUp(was, base, plan)
  {
    hide AllRemovable, Established;
  }

  lemma EndedSame(m: Machine)
    ensures Ended(false, m, m)
  {
  }

  lemma PlanSession(plan: Plan)
    requires ValidPlan(plan)
    ensures ValidSessionID(plan.sessionId)
  {
  }

  lemma PromisingFacts(host: HostState, eg: Egress, choice: Choice)
    requires Promising(host, eg, choice)
    ensures ValidPlan(choice.plan) && ValidSessionID(choice.plan.sessionId) && choice.server != "" && choice.now != 0
  {
  }

  lemma AccountedFacts(base: HostState, eg: Egress, plan: Plan, uid: int, m: Machine)
    requires Accounted(base, eg, plan, uid, m)
    ensures forall id :: id in m.journals ==> m.metadata.Some? && m.metadata.value.sessionId == id
    ensures m.metadata.None? ==> m.journals == map[]
    ensures m.metadata.Some? ==> ValidMetadata(m.metadata.value)
    ensures m.journals == map[] ==>
      m.device.None? && m.host.dns == base.dns && Settled(base.routes, m.host.routes, plan)
  {
    hide Settled;
    if m.metadata.None? {
      assert forall id :: id !in m.journals;
      assert m.journals.Keys == {};
    }
  }

  // ---------- whole runs ----------

  /** `kept` are the routes through the device that survive the helper, `step` the one at which it dies on its exit, if
      it does not die after the last. */
  datatype Operation =
    | DoConnect(choice: Choice) | DoDisconnect | DoReconnect(isFresh: bool, recommend: Query -> Choice)
    | HelperDeath(kept: set<Prefix>) | HelperExit(step: Option<nat>, kept: set<Prefix>)

  /** The operation may come to connect the plan. */
  ghost predicate Names(op: Operation, plan: Plan) {
    match op
    case DoConnect(choice) => choice.plan == plan
    case DoReconnect(_, recommend) => exists q :: recommend(q).plan == plan
    case _ => false
  }

  /** All plans are the user's. */
  ghost predicate OwnedBy(op: Operation, uid: int) { forall plan :: Names(op, plan) ==> plan.ownerUid == uid }

  /** The plan is that of one of the operations. */
  ghost predicate Among(ops: seq<Operation>, plan: Plan) { exists i :: 0 <= i < |ops| && Names(ops[i], plan) }

  /** The table is the first one, less routes that are twins to one of the operations' plans. */
  ghost predicate SettledOver(base: Table, t: Table, ops: seq<Operation>) {
    forall d :: At(t, d) == At(base, d) || LostTwin(base, t, ops, d)
  }

  ghost predicate LostTwin(base: Table, t: Table, ops: seq<Operation>, d: Prefix) {
    d !in t && d in base && exists plan :: Among(ops, plan) && IsTwin(plan, d, base[d])
  }

  lemma SettledNext(a: Table, b: Table, c: Table, ops: seq<Operation>, plan: Plan)
    requires SettledOver(a, b, ops) && Settled(b, c, plan) && Among(ops, plan)
    ensures SettledOver(a, c, ops)
  {
    forall d ensures At(c, d) == At(a, d) || LostTwin(a, c, ops, d) {
      assert At(b, d) == At(a, d) || LostTwin(a, b, ops, d);
      assert SettledAt(b, c, plan, d);
    }
  }

  lemma SettledTwinlessOver(base: Table, t: Table, ops: seq<Operation>)
    requires SettledOver(base, t, ops) && forall plan :: Among(ops, plan) ==> Twinless(base, plan)
    ensures t == base
  {
    forall d ensures (d in t <==> d in base) && (d in t ==> t[d] == base[d]) {
      assert At(t, d) == At(base, d) || LostTwin(base, t, ops, d);
    }
  }

  /** What a session's pre-image has to do with the host at the start of the run. */
  ghost predicate Descends(host: HostState, ops: seq<Operation>, base: HostState, plan: Plan, m: Machine) {
    && SettledOver(host.routes, base.routes, ops) && base.dns == host.dns
    && (Among(ops, plan) || (m.host == base && m.journals == map[]))
  }

  /** The host as it stands between sessions descends too. */
  lemma HostDescends(host: HostState, ops: seq<Operation>, base: HostState, eg: Egress, plan: Plan, uid: int,
                     m: Machine)
    requires Descends(host, ops, base, plan, m) && Accounted(base, eg, plan, uid, m) && m.journals == map[]
    ensures SettledOver(host.routes, m.host.routes, ops) && m.host.dns == host.dns
  {
    hide Accounted, SettledOver, Settled, Among;
    AccountedFacts(base, eg, plan, uid, m);
    if Among(ops, plan) {
      SettledNext(host.routes, base.routes, m.host.routes, ops, plan);
    }
  }

  /** What is unblocked on the first table is unblocked on every table that descends from it. */
  lemma StillUnblocked(base: Table, t: Table, ops: seq<Operation>, plan: Plan)
    requires SettledOver(base, t, ops) && Unblocked(base, plan)
    ensures Unblocked(t, plan)
  {
    hide ValidRoute, IsTwin;
    forall d | d in t ensures d in base && t[d] == base[d] {
      assert At(t, d) == At(base, d) || LostTwin(base, t, ops, d);
    }
    hide SettledOver, LostTwin;
    forall d, device, i: nat | d in t && RouteAt(plan, device, i).Some? && RouteAt(plan, device, i).value.dest == d
      ensures ValidRoute(t[d]) && IsTwin(plan, d, t[d])
    {
      assert d in base && RouteAt(plan, device, i).Some?;
    }
  }

  /** Nothing on the host keeps the plan's session from being undone. */
  ghost predicate Undoable(host: HostState, eg: Egress, plan: Plan) {
    Unblocked(host.routes, plan) && Wired(eg, plan.EndpointRoute())
  }

  /** A machine after its helper was to exit. */
  ghost predicate Exited(quiet: bool, m: Machine, step: Option<nat>, m': Machine) {
    && m'.metadata == m.metadata && m'.device.None? && (m.journals == map[] ==> m' == m)
    && (quiet && step.None? && m.metadata.Some? && m.metadata.value.sessionId in m.journals ==>
          var id := m.metadata.value.sessionId; Verdict(m'.journals == map[], WorldOf(m, id), m.journals[id]))
  }

  /** What an operation makes of the machine. */
  ghost predicate Follows(quiet: bool, eg: Egress, m: Machine, op: Operation, m': Machine) {
    match op
    case DoConnect(choice) => if m.metadata.Some? then m' == m else Began(quiet, eg, m, choice, m')
    case DoDisconnect => Ended(quiet, m, m')
    case DoReconnect(isFresh, recommend) =>
      if isFresh && m.metadata.Some? then Replaced(quiet, eg, m, recommend, m') else m' == m
    case HelperDeath(kept) => m' == Bereft(m, kept)
    case HelperExit(step, kept) => Exited(quiet, m, step, m')
  }

  /** One operation of a run. */
  method Perform(s: Service, op: Operation, ghost host: HostState, ghost ops: seq<Operation>, ghost i: nat)
    requires s.Inv() && Descends(host, ops, s.base, s.plan, s.m) && i < |ops| && ops[i] == op && OwnedBy(op, s.uid)
    modifies s, s.runner
    ensures s.runner.Went()
    ensures s.Inv() && Descends(host, ops, s.base, s.plan, s.m)
    ensures Follows(s.runner.Quiet(), s.eg, old(s.m), op, s.m)
    // Undisturbed, a Disconnect ends the session of a plan that the first host lets be undone.
    ensures s.runner.Quiet() && op.DoDisconnect? && (forall plan :: Among(ops, plan) ==> Undoable(host, s.eg, plan)) ==>
      Back(host, ops, s.m)
  {
    hide Accounted, SettledOver, Settled, Undoable, Established, Promising, Twinless, Began, Ended, Replaced, Verdict,
      Bereft, IsUp;
    ghost var was, wasBase, wasPlan := s.m, s.base, s.plan;
    if s.m.journals == map[] {
      HostDescends(host, ops, s.base, s.eg, s.plan, s.uid, s.m);
    }
    match op {
      case DoConnect(choice) =>
        assert Names(op, choice.plan);
        var r := s.ConnectLocked(choice);
        assert Among(ops, choice.plan);
      case DoDisconnect =>
        GiveBack(s, host, ops);
      case DoReconnect(isFresh, recommend) =>
        assert forall q :: Names(op, recommend(q).plan);
        var r := s.Reconnect(isFresh, recommend);
        assert forall q :: Among(ops, recommend(q).plan);
        if Among(ops, wasPlan) && Settled(wasBase.routes, s.base.routes, wasPlan) {
          SettledNext(host.routes, wasBase.routes, s.base.routes, ops, wasPlan);
        }
      case HelperDeath(kept) =>
        if s.m.journals == map[] {
          AccountedFacts(s.base, s.eg, s.plan, s.uid, s.m);
        }
        s.HelperDies(kept);
      case HelperExit(step, kept) =>
        s.HelperExits(step, kept);
        AccountedFacts(s.base, s.eg, s.plan, s.uid, s.m);
    }
  }

  /** No session is left, and the host is that of the start of the run, less the twins of the plans of the run. */
  ghost predicate Back(host: HostState, ops: seq<Operation>, m: Machine) {
    && m == Machine(None, map[], m.host, None) && m.host.dns == host.dns && SettledOver(host.routes, m.host.routes, ops)
    && ((forall plan :: Among(ops, plan) ==> Twinless(host.routes, plan)) ==> m.host == host)
  }

  /** A Disconnect in a run. */
  method GiveBack(s: Service, ghost host: HostState, ghost ops: seq<Operation>)
    requires s.Inv() && Descends(host, ops, s.base, s.plan, s.m)
    modifies s`m, s`asked, s.runner
    ensures s.runner.Went()
    ensures s.Inv() && Descends(host, ops, s.base, s.plan, s.m) && Ended(s.runner.Quiet(), old(s.m), s.m)
    ensures s.runner.Quiet() && (forall plan :: Among(ops, plan) ==> Undoable(host, s.eg, plan)) ==>
      Back(host, ops, s.m)
  {
    hide Accounted, SettledOver, Settled, Unblocked, Wired, Twinless, Among;
    if Undoable(host, s.eg, s.plan) {
      StillUnblocked(host.routes, s.base.routes, ops, s.plan);
    }
    var r := s.DisconnectLocked();
    if s.m.metadata.None? {
      HostDescends(host, ops, s.base, s.eg, s.plan, s.uid, s.m);
      if forall plan :: Among(ops, plan) ==> Twinless(host.routes, plan) {
        SettledTwinlessOver(host.routes, s.m.host.routes, ops);
      }
    }
  }

  /** Any run of operations on a machine that starts without sessions, each with its own fates of its commands:
      `history` has the machine before each operation and after the last, `quiet` says in which no command failed.
      Whenever a Disconnect meets no failure, no session is left, and the host is as it was at the start of the run,
      less the twins of the plans of the run. */
  method EveryRun(host: HostState, eg: Egress, uid: int, ops: seq<Operation>, fates: seq<nat -> Fate>)
    returns (history: seq<Machine>, quiet: seq<bool>)
    requires |fates| == |ops| && forall i :: 0 <= i < |ops| ==> OwnedBy(ops[i], uid)
    ensures |history| == |ops| + 1 && history[0] == Machine(None, map[], host, None)
    ensures |quiet| == |ops| && forall i :: 0 <= i < |ops| && AllWork(fates[i]) ==> quiet[i]
    ensures forall i :: 0 <= i < |ops| ==> Follows(quiet[i], eg, history[i], ops[i], history[i + 1])
    // A journal is only ever the recorded session's.
    ensures forall i :: 0 <= i < |history| ==> OnRecord(history[i])
    ensures (forall plan :: Among(ops, plan) ==> Undoable(host, eg, plan)) ==>
      forall i :: 0 <= i < |ops| && ops[i].DoDisconnect? && quiet[i] ==> Back(host, ops, history[i + 1])
  {
    hide Accounted, SettledOver, Among, OnRecord, Follows, Back, Undoable, AllWork, OwnedBy;
    var anyPlan: Plan := *;
    FirstAccounted(host, eg, anyPlan, uid);
    SettledAtFirst(host.routes, ops);
    var m, base, plan := Machine(None, map[], host, None), host, anyPlan;
    history, quiet := [m], [];
    EmptyOnRecord(m);
    for i := 0 to |ops|
      invariant Accounted(base, eg, plan, uid, m) && Descends(host, ops, base, plan, m)
      invariant |history| == i + 1 && history[0] == Machine(None, map[], host, None) && history[i] == m
      invariant |quiet| == i && forall k :: 0 <= k < i && AllWork(fates[k]) ==> quiet[k]
      invariant forall k :: 0 <= k < |history| ==> OnRecord(history[k])
      invariant forall k :: 0 <= k < i ==> Follows(quiet[k], eg, history[k], ops[k], history[k + 1])
      invariant (forall p :: Among(ops, p) ==> Undoable(host, eg, p)) ==>
        forall k :: 0 <= k < i && ops[k].DoDisconnect? && quiet[k] ==> Back(host, ops, history[k + 1])
    {
      var clock: nat -> int := *;
      var runner := new Runner(fates[i], clock);
      var s := new Service(m, eg, uid, runner, base, plan);
      Perform(s, ops[i], host, ops, i);
      RecordOf(s);
      m, base, plan := s.m, s.base, s.plan;
      history, quiet := history + [m], quiet + [runner.failed == 0];
    }
  }

  /** Every journal is that of the session on record. */
  predicate OnRecord(m: Machine) {
    forall id :: id in m.journals ==> m.metadata.Some? && m.metadata.value.sessionId == id
  }

  lemma EmptyOnRecord(m: Machine)
    requires m.journals == map[]
    ensures OnRecord(m)
  {
  }

  lemma RecordOf(s: Service)
    requires s.Inv()
    ensures OnRecord(s.m)
  {
    hide Recoverable, ValidMetadata;
  }

  lemma SettledAtFirst(t: Table, ops: seq<Operation>)
    ensures SettledOver(t, t, ops)
  {
  }

  lemma FirstAccounted(host: HostState, eg: Egress, plan: Plan, uid: int)
    ensures Accounted(host, eg, plan, uid, Machine(None, map[], host, None))
  {
    Untouched(host, eg, plan);
  }
}
