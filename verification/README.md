# nordmac: the journaled tunnel and what surrounds it

nordmac brings up a WireGuard tunnel on macOS as a write-ahead-logged transaction. It pins the route to the VPN
endpoint, opens a userspace device, adds the tunnel routes and sets the DNS servers of one network service. Every
step is written to a journal before it is taken and marked after. A failure rolls back in reverse order, carries on
past errors and keeps what could not be undone on record, so that a later process can take up where it stopped.

This project models that transaction and proves what it is for: from any point where a process dies, after any mix
of failures, the journal on disk accounts for everything that differs from the host as it was, and one undisturbed
Disconnect gives it all back. Around this core it models the parts that make the claim mean something:

| file | what it models |
|---|---|
| `Net.dfy` | addresses, prefixes, powers of two |
| `Faults.dfy`, `Bytes.dfy` | the command runner, whose commands may fail before or after they take effect; byte strings |
| `Model.dfy` | plans, routes, journals and their validity |
| `Host.dfy` | the routing table and DNS settings, the adapters that change them, the conflict check |
| `Protocol.dfy` | what every step of the transaction keeps |
| `Rollback.dfy` | runs of undos: what a rollback can and cannot do, told from what it finds |
| `Controller.dfy` | Connect, Disconnect and rollback |
| `Lifetime.dfy` | whole lives of a session over crashes and restarts |
| `Instances.dfy` | concrete hosts for the conditions, and what happens where they fail |
| `Routing.dfy` | where packets go, under longest-prefix match |
| `Mask.dfy` | masks and route reports |
| `Store.dfy` | the journal store on files |
| `Session.dfy` | the user's connection record and its helper calls |
| `Credentials.dfy` | the two-item credential transactions |
| `Framing.dfy` | the helper protocol's frames |
| `Health.dfy` | the ownership check and the serving loop |
| `Device.dfy` | the device manager and its one-shot keys |

`dafny verify dfyconfig.toml` checks all of it.

## How it is modelled

- **Worlds and traces.** A `World` is what outlives one adapter call: host, live device, journal on disk. A
  `Controller` records the world after every step, so "a crash at any step" is "any world of the trace", and
  `Recoverable` is proved of each of them. `base` is the host before Connect.
- **Failure.** Every command goes through a `Runner`, which has a schedule: the n-th command works, or fails before or
  after taking effect. Nothing is assumed of the schedule or of the clock. `Quiet` says that no command has failed since
  the call began, so what a contract promises of a quiet call it promises whatever may fail elsewhere; outcomes called
  `flaky` are those of calls in which a command failed. Cancelled contexts and timeouts are such failures.
- **Death of a process.** Its device goes, and with it any of the routes through it; which of them go, and the step at
  which it happens, are parameters (`Fortune`, `Remains`).
- **Death of the machine.** Until a write of the journal is durable, an older one may come back. A `Controller` keeps
  the set of journals that may (`maybe`), and `AllRecoverable` is proved of each of them at every step.
- **The kernel.** It installs what it is asked to, except that it chooses the interface of a gateway route itself
  (`egress`); `Wired` says that the choice is the planned one. Each adapter call is one step.

## What the proofs found

- **A twin of the pin is lost.** A pre-existing host route that agrees with the endpoint pin cannot be told from it.
  A failed Connect with a clean rollback leaves the host untouched if and only if there was none (`Connect`,
  `NoNetEffect`). `TwinnedHost` passes every check and has one, and there an undisturbed Connect ends in exactly that
  way. For recovery at large the same role is played by `Twinless`.
- **A foreign route can block a session for good.** The conflict check looks neither at the endpoint's host route nor
  at scoped prefixes. A foreign route there that is no twin makes `Add` refuse and then every `Remove` refuse
  (`BlockedEntry`, `BlockedForGood`, `TakenForGood`; `BlockedHost` and `BlockedScope` pass every check). What an
  undisturbed Connect comes to is read off the host and the plan before the call: refused, up, clean failure or one of
  the three obstacles that stick (`Connect`). A Disconnect ends the session only if every live route of the journal can
  be removed from the table as it is found, whatever fails, and undisturbed then always (`Disconnect`, `RollbackExact`;
  "only if" leaves out a pin that leaves through the device itself, which may go with the device).
- **A failure costs no more than itself.** Where every live route can be removed, a rollback leaves on disk at most as
  many live entries as commands failed in it (`EachFailureOne`, `Rollback`, `Disconnect`); after a failed Connect the
  same holds of the commands that failed since the rollback began (`Connect`), so one failed step is undone completely.
- **A misplaced pin is stranded.** If the kernel reaches the gateway over an interface other than the planned one,
  `Add` fails after installing the pin, and no Disconnect, disturbed or not, ever removes it (`Disconnect`,
  `StrandedForGood`; `UnwiredHost` passes every check). So the `Wired` hypothesis of `Life` cannot be dropped.
- **A rollback with failures may take the pin from under a tunnel route.** It carries on past a tunnel route that it
  could not remove. Every rollback of a given world keeps the pin up for as long as a tunnel route stands if and only
  if nothing can fail, or no tunnel route of the journal stands, or nothing can take the pin away (`GuardExact`). After
  any successful Connect none of these holds on a host that may fail (`UnguardedRollback`).
- **A second helper can orphan the device.** When the socket of a living helper does not answer, Disconnect goes to a
  new process whose device manager knows no session. It reports success with the first helper's device still open if
  and only if that helper lives and every live route can be removed (`SecondHelper`), which is so after any successful
  Connect on a favourable host (`OrphanedDevice`).
- **Foreign conflict leaves the phase table.** Rollback writes its final phases without asking the transition table.
  From Connect on, that never shows (`PhaseMachine`). What an undisturbed Disconnect leaves on disk violates the table
  if and only if it found a journal in a foreign conflict, which nothing here writes (`Disconnect`; `ForeignJournal`
  is one, and `ForeignConflictKept` is what becomes of it).
- The ownership check asks for DNS servers, so it never accepts a scoped tunnel (`ScopedNeverAgrees`).
- A temporary journal file whose write fails is left behind (`WriteTemporary`); no reader ever sees it.

## Model

| member | source | states |
|---|---|---|
| `TunnelModel.ValidatePlan` | internal/tunnel/model.go:79-121 | the checks with their loop and `seen` map accept exactly the plans `ValidPlan` describes |
| `TunnelModel.ValidatePolicy` | internal/tunnel/model.go:153-190 | accepts exactly the full policies with one to four resolvers and a service, and the scoped ones with one to four good prefixes and no DNS |
| `TunnelModel.ValidateScopes` | internal/tunnel/model.go:172-185 | accepts exactly distinct canonical private prefixes of /16 to /32 that hold neither endpoint nor gateway |
| `TunnelModel.BuildTunnelRoutes` | internal/tunnel/model.go:135-149 | the loop builds the plan's tunnel routes, in order |
| `TunnelModel.ExpectedKinds` | internal/tunnel/model.go:416-425 | one kind per step: pin, device, tunnel routes, DNS where managed |
| `TunnelModel.ValidatePreimages` | internal/tunnel/model.go:427-472 | accepts exactly pre-images that fit the plan |
| `TunnelModel.ValidateHeader` | internal/tunnel/model.go:324-346 | accepts exactly a consistent identity, phase, times, pre-images and device |
| `TunnelModel.ValidateEntries` | internal/tunnel/model.go:351-371 | the first loop accepts exactly entries in transaction order with a route where one belongs |
| `TunnelModel.ValidateRoutes` | internal/tunnel/model.go:378-395 | accepts exactly journals whose routes are the plan's, with the device's interface on direct ones |
| `TunnelModel.ValidateStatuses` | internal/tunnel/model.go:396-412 | accepts exactly statuses the phase allows |
| `TunnelModel.ValidateJournal` | internal/tunnel/model.go:323-414 | the whole check decides `ValidJournal`: entries are a prefix of the plan's transaction, statuses fit the phase |
| `TunnelModel.PlannedRouteValid` | internal/tunnel/model.go:127-149 | every route of a valid plan is valid and names an interface |
| `TunnelModel.PlannedDistinct` | internal/tunnel/model.go:127-184 | a valid plan never names one destination twice |
| `DarwinNet.Host.Snapshot` | internal/darwinnet/route.go:24-43 | reads the IPv4 default route, and reports one only if it has a numeric gateway and is valid |
| `DarwinNet.Host.InspectExact` | internal/darwinnet/route.go:104-140 | missing means absent, found means that very route; without failures both are complete |
| `DarwinNet.Host.Add` | internal/darwinnet/route.go:45-71 | inspects, adds, inspects again, told command by command; never replaces a route and takes nothing back; succeeds exactly if nothing fails and the route stands as planned |
| `DarwinNet.Host.Remove` | internal/darwinnet/route.go:73-95 | takes away at most a route that agrees on interface, reject flag and planned gateway, told command by command; success means nothing stands there |
| `DarwinNet.Host.SnapshotService` | internal/darwinnet/dns.go:92-117 | returns a service's settings exactly, and only readable ones |
| `DarwinNet.Host.ApplyDNS` | internal/darwinnet/dns.go:39-52 | each component is the old or the configured one, servers first; success configured all |
| `DarwinNet.Host.RestoreIfOwned` | internal/darwinnet/dns.go:54-90 | a component that is neither applied nor original stops it before any write; components move only from applied to original, domains first; it succeeds exactly if it may and nothing fails |
| `DarwinNet.Host.CheckConflicts` | internal/darwinnet/conflict.go:17-43 | accepts exactly hosts with the planned physical default and no split default, if no command fails |
| `DarwinNet.ForeignRouteKept` | internal/darwinnet/route.go:45-95 | over any sequence of adds, removals and foreign edits a foreign route that agrees with no removed route stays, and calls aimed at it fail without effect |
| `DarwinNet.ForeignServersKept` | internal/darwinnet/dns.go:54-90 | over any sequence of restores and foreign edits foreign servers stay; if they are not the original ones each restore reports a conflict and writes nothing |
| `DarwinNet.RestoreConverges` | internal/darwinnet/dns.go:54-90 | however many restores fail half way, the first undisturbed one restores every managed component |
| `TunnelProtocol.LiveCountFalls` | internal/tunnel/controller.go:304-333 | while no entry is added, live entries never multiply, and each undo makes them fewer |
| `TunnelProtocol.Coverage` | internal/tunnel/controller.go:245-276 | in a recoverable world every route, DNS change and device of the session is named by a live entry on disk |
| `TunnelProtocol.CrashKeeps` | internal/tunnel/controller.go:204-243 | the death of a process leaves a recoverable world |
| `TunnelProtocol.AllRolledBack` | internal/tunnel/controller.go:343-351 | when every entry is rolled back, device, DNS and routes are as before, up to twins |
| `TunnelProtocol.AddCovered` | internal/tunnel/controller.go:245-258 | an add that fails after taking effect is covered by the intent already recorded |
| `TunnelProtocol.UndoCovers` | internal/tunnel/controller.go:304-333 | an undo, whatever it does, keeps every journal of the session covering, the one on disk and the one in memory |
| `TunnelProtocol.AddPinGuard` | internal/tunnel/controller.go:142-180 | adding in order never puts up a tunnel route without the pin |
| `TunnelProtocol.AppendValid` | internal/tunnel/controller.go:260-267 | the journal with the next intent is valid |
| `TunnelProtocol.AppliedValid` | internal/tunnel/controller.go:269-276 | the journal with its last step marked, and the device if it made one, is valid |
| `TunnelProtocol.MarkValid` | internal/tunnel/controller.go:328-332 | the journal with an entry rolled back is valid |
| `TunnelProtocol.PhasedValid` | internal/tunnel/controller.go:290-302 | the journal in each of a rollback's phases is valid |
| `TunnelProtocol.ConnectedValid` | internal/tunnel/controller.go:278-288 | a completely applied journal may be declared connected |
| `TunnelProtocol.NoNetEffect` | internal/tunnel/controller.go:132-140 | after a clean rollback the routes are the old ones less a twin of the pin, hence the old ones exactly if there was no twin |
| `TunnelProtocol.InitialValid` | internal/tunnel/controller.go:113-127 | the first journal is valid on every host that passes the checks |
| `TunnelProtocol.InitialStartable` | internal/tunnel/controller.go:101-127 | and on no other |
| `TunnelProtocol.NextFree` | internal/tunnel/controller.go:173-180 | while the transaction goes forward the next route finds its destination taken exactly if it was taken before Connect |
| `TunnelProtocol.UndoSurface` | internal/tunnel/controller.go:304-333 | an undo keeps the world recoverable from every journal that a crash of the machine may bring back |
| `TunnelRollback.UndoExact` | internal/tunnel/controller.go:309-327 | a live entry is undone only if its route can be removed, and then always unless a command fails; DNS and device always can |
| `TunnelRollback.RollbackExact` | internal/tunnel/controller.go:304-333 | in any rollback an entry that can be removed as found stays only if its own turn was disturbed, and one that cannot is never undone unless the pin leaves through the device |
| `TunnelRollback.RollbackAll` | internal/tunnel/controller.go:304-333 | so an undisturbed rollback undoes everything exactly if every live route can be removed as found |
| `TunnelRollback.LiveHits` | internal/tunnel/controller.go:304-333 | if only disturbed turns leave a live entry, no more stay than turns were disturbed |
| `TunnelController.EachFailureOne` | internal/tunnel/controller.go:304-353 | each failed command leaves at most one entry live on disk, if all of them can be undone |
| `TunnelRollback.CleanExact` | internal/tunnel/controller.go:132-140 | what an undisturbed Connect put up can all be removed exactly if no journaled destination was taken |
| `TunnelRollback.UndoPinGuard` | internal/tunnel/controller.go:304-333 | a step keeps the pin guard if no later tunnel entry's own route stands |
| `TunnelRollback.GuardKept` | internal/tunnel/controller.go:304-333 | every rollback keeps the guard if nothing can fail, or no tunnel route stands, or nothing can take the pin |
| `TunnelRollback.GuardLost` | internal/tunnel/controller.go:324-327 | otherwise a rollback is given, undo by undo, that takes the pin from under a tunnel route |
| `TunnelRollback.GuardExact` | internal/tunnel/controller.go:304-333 | all rollbacks of a world keep the guard exactly under that condition on the world and the journal |
| `TunnelRollback.BlockedEntry` | internal/darwinnet/route.go:84-91 | a foreign route at a planned destination that is no twin stays, and its entry is live and cannot be undone |
| `TunnelRollback.UndoStranded` | internal/darwinnet/route.go:84-91 | no undo removes a pin that the kernel has put elsewhere; its own reports failure |
| `TunnelRollback.ConnectedLoose` | internal/tunnel/controller.go:142-180 | after a successful Connect the tunnel routes stand and the pin can be taken |
| `TunnelProtocol.UndoOrderExact` | internal/tunnel/controller.go:304-308 | a rollback acts on the live entries and no others, each once, last first |
| `TunnelController.NextTime` | internal/tunnel/controller.go:413-419 | the clock's time if it is later than the previous one, and otherwise the next there is |
| `TunnelController.Controller.Persist` | internal/tunnel/controller.go:260-288 | hands over only valid journals; the disk then holds the old or the new one; it succeeds exactly if nothing fails |
| `TunnelController.Controller.RecordIntent` | internal/tunnel/controller.go:260-267 | appends the next step as planned, timed by the clock, and writes it before anything happens |
| `TunnelController.Controller.MarkApplied` | internal/tunnel/controller.go:269-276 | marks the last step applied, timed by the clock; on success memory, disk and host agree |
| `TunnelController.Controller.ApplyRoute` | internal/tunnel/controller.go:245-258 | on success one more planned route stands and is recorded; on failure the journal covers what happened; it stops where the destination is taken or the gateway unreachable, and undisturbed nowhere else unless the kernel misplaces the route |
| `TunnelController.Controller.ApplyDevice` | internal/tunnel/controller.go:149-171 | the same for the device |
| `TunnelController.Controller.ApplyDns` | internal/tunnel/controller.go:182-193 | the same for DNS |
| `TunnelController.Controller.ApplyTunnelRoutes` | internal/tunnel/controller.go:173-180 | the forward loop installs the tunnel routes in order, always behind the pin; undisturbed it stops only at a destination that was taken, and the journal shows it |
| `TunnelController.Controller.DeclareConnected` | internal/tunnel/controller.go:278-288 | writes the connected phase over a completely applied journal |
| `TunnelController.Controller.Complete` | internal/tunnel/controller.go:182-201 | DNS, then the verifier, then the connected phase; undisturbed it succeeds exactly if the verifier agrees |
| `TunnelController.Controller.CaptureDns` | internal/tunnel/controller.go:105-111 | the DNS pre-image is the service's setting, and empty where DNS is not managed |
| `TunnelController.Controller.Prepare` | internal/tunnel/controller.go:75-127 | under the lock and changing nothing, it has a journal to start from exactly if the host passes the checks and no command fails; that is valid, empty, of this time and holds the host's pre-image |
| `TunnelController.Controller.Publish` | internal/tunnel/controller.go:128-130 | puts the empty journal on disk, never over another |
| `TunnelController.Controller.Connect` | internal/tunnel/controller.go:74-202 | up: everything planned stands, nothing else changed, journal connected, which takes a favourable host and the verifier's consent; clean failure: host as before exactly if the pin had no twin; every failure, whatever caused it, has tried every journaled entry, last first, reports each one still live on disk, and with the pin in order leaves no more live than commands failed since the rollback began, none exactly if no destination was taken; undisturbed: refused exactly if the host fails the checks, up exactly if favourable and verified, otherwise clean exactly unless the endpoint's route cannot be removed, the kernel misplaces the pin or a destination is taken; every step recoverable |
| `TunnelController.Controller.Proceed` | internal/tunnel/controller.go:142-201 | pin, device, tunnel routes, then the rest: it succeeds only on a favourable host with the verifier's consent, and undisturbed then always; the journal names a taken destination exactly if only the tunnel routes were in the way |
| `TunnelController.Controller.Transact` | internal/tunnel/controller.go:132-202 | everything after the first journal: up, or rolled back with all that a rollback promises |
| `TunnelController.Controller.GaveUp` | internal/tunnel/controller.go:132-140 | from the world and journal a failed Connect stopped at, its rollback is clean exactly unless something sticks |
| `TunnelController.Controller.Recoups` | internal/tunnel/controller.go:132-140 | what the rollback of a failed Connect comes to, whatever had failed before it |
| `TunnelController.Controller.GiveUp` | internal/tunnel/controller.go:132-140 | the rollback after a failure: it tries every entry, last first; clean, it leaves the old routes less the pin's destination; otherwise the journal stays with what could not be undone or written |
| `TunnelController.Controller.UndoEntry` | internal/tunnel/controller.go:309-327 | undoes an entry through the adapter of its kind |
| `TunnelController.Controller.RollBackEntry` | internal/tunnel/controller.go:309-332 | a failed undo leaves the entry live; an undone one is marked, timed and written |
| `TunnelController.Controller.MarkUndone` | internal/tunnel/controller.go:328-332 | marks an undone entry and writes it, successfully exactly if nothing fails |
| `TunnelController.Controller.UndoAll` | internal/tunnel/controller.go:304-333 | the descending loop tries every live entry once; exactly the failed ones stay live in memory |
| `TunnelController.Controller.BeginRollback` | internal/tunnel/controller.go:290-302 | announces the rollback where the table allows it |
| `TunnelController.Controller.FinishRollback` | internal/tunnel/controller.go:335-352 | with errors the journal stays, and what is not reported as unwritten is on disk; without, host, DNS and device are given back and the journal goes |
| `TunnelController.Controller.RollBackAll` | internal/tunnel/controller.go:290-353 | what it did is a run of undos along the journal, its errors say which of them failed, and there are no more disturbed turns and failed writes than commands failed |
| `TunnelController.Controller.Rollback` | internal/tunnel/controller.go:290-353 | acts in reverse order on live entries and carries on past errors; each failed command leaves at most one removable entry live on disk; keeps the pin guard under the condition of GuardExact on what it finds; the journal goes only if every live route can be removed, and undisturbed then always; a misplaced pin stays and is reported |
| `TunnelController.Controller.Disconnect` | internal/tunnel/controller.go:204-243 | success gives everything back; strangers change nothing, nothing is done without the lock, and only a failed lock or load keeps it from acting; entries on disk only advance, live ones never multiply and fall with each written undo, each failed command leaves at most one; the journal goes only if every live route can be removed as found, and undisturbed then always; it leaves a phase off the table exactly if it found a foreign conflict |
| `TunnelController.Controller.LockAndLoad` | internal/tunnel/controller.go:204-236 | takes the lock and loads: it fails for a request that is not the owner's, and otherwise exactly if a command fails |
| `TunnelLifetime.PhaseMachine` | internal/tunnel/controller.go:278-302 | in every run from Connect on, consecutive phases on disk are equal or allowed, entries advance and times strictly increase |
| `TunnelLifetime.NeverForeign` | internal/tunnel/controller.go:394-404 | no run that starts outside a foreign conflict enters one |
| `TunnelLifetime.StatusesAdvance` | internal/tunnel/controller.go:304-333 | over any stretch of a run statuses on disk only move forward |
| `TunnelLifetime.DeletedOnlyWhenEmpty` | internal/tunnel/controller.go:343-351 | a journal leaves the disk only when none of its entries is live |
| `TunnelLifetime.AlwaysCovered` | internal/tunnel/controller.go:245-276 | in every world of every run, what the session installed is named by a live entry on disk |
| `TunnelLifetime.Die` | internal/tunnel/controller.go:74-353 | a process that dies at a given step leaves the world of that step less its device, from which the run goes on, and which every journal that may come back accounts for |
| `TunnelLifetime.RemainsAll` | internal/wgbackend/backend.go:52-54 | whatever the death of a process may leave is covered |
| `TunnelLifetime.Recover` | internal/tunnel/controller.go:204-243 | a recovering process keeps the run recoverable however it fares, and gives back the pre-image if no command of it fails |
| `TunnelLifetime.RecoverAtLast` | internal/tunnel/controller.go:204-243 | one undisturbed Disconnect ends the session and gives back the pre-image |
| `TunnelLifetime.Life` | internal/tunnel/controller.go:74-353 | any number of processes, the first connecting, the others recovering, each failing, timed and dying as its fortune has it: each is a run that starts at what the one before left, the tunnel was up if nothing failed on a favourable host, and every later process in which nothing fails ends with the host as before, no device, no journal |
| `TunnelLifetime.PowerLoss` | internal/state/journal.go:73-76 | the machine goes down at any given step: from any journal that may come back one undisturbed Disconnect ends the session |
| `TunnelLifetime.SurfacedCover` | internal/state/journal.go:73-76 | every journal that a crash may bring back is valid and covers the host |
| `TunnelLifetime.StrandedPin` | internal/darwinnet/route.go:60-91 | a gateway route once added can be removed exactly if the kernel placed it as planned |
| `TunnelInstances.OrdinaryHost` | internal/tunnel/controller.go:74-202 | a concrete host and plan that meet every condition under which Connect and recovery are proved to succeed |
| `TunnelInstances.TwinnedHost` | internal/darwinnet/route.go:53-54 | a host that passes every check although the pin has a twin, which a clean failure then removes |
| `TunnelInstances.BlockedHost` | internal/darwinnet/route.go:84-91 | a host that passes every check although the endpoint has another host route |
| `TunnelInstances.BlockedScope` | internal/darwinnet/conflict.go:28-41 | a host that passes every check, with pin and device in order, although a scoped prefix has a route |
| `TunnelInstances.UnwiredHost` | internal/darwinnet/route.go:170-180 | a host that passes every check although the kernel would misplace the pin |
| `TunnelInstances.ForeignJournal` | internal/tunnel/controller.go:394-404 | a valid journal in a foreign conflict on an untouched host |
| `TunnelInstances.UnguardedRollback` | internal/tunnel/controller.go:324-327 | from what any successful Connect leaves, a rollback that takes the pin from under a tunnel route |
| `TunnelInstances.StrandedForGood` | internal/darwinnet/route.go:60-91 | where the kernel misplaces the pin, Connect fails and the pin stays through any number of Disconnects, disturbed or not; each of them fails, and undisturbed each reports the pin |
| `TunnelInstances.BlockedForGood` | internal/darwinnet/route.go:84-91 | where a foreign route blocks a journaled step each of any number of Disconnects fails, disturbed or not, and the journal stays |
| `TunnelInstances.TakenForGood` | internal/darwinnet/route.go:53-91 | where a tunnel route's destination is taken, an undisturbed Connect leaves a journal that no Disconnect of a later process ever clears |
| `TunnelInstances.ConnectUp` | internal/tunnel/controller.go:74-202 | what an undisturbed Connect leaves on any favourable host: connected, established, with its device |
| `TunnelInstances.SecondHelper` | internal/helperdaemon/daemon.go:197-212 | a Disconnect by a helper that does not own the device reports success with the device still open exactly if the owner lives and every live route can be removed; nothing then accounts for the device |
| `TunnelInstances.OrphanedDevice` | internal/helperclient/client.go:24-33 | after any successful Connect on a favourable host it does |
| `TunnelInstances.ForeignConflictKept` | internal/tunnel/controller.go:290-302 | an undisturbed Disconnect of a foreign conflict fails and writes rollback required |
| `Routing.LookupIs` | internal/darwinnet/route.go:104-140 | in a table of canonical prefixes longest-prefix match has one answer |
| `Routing.FullCapture` | internal/tunnel/model.go:127-149 | over any table that passed the conflict check: endpoint to the gateway, addresses with a route of their own keep it, all other IPv4 to the device, all other IPv6 rejected |
| `Routing.NoLoop` | internal/tunnel/controller.go:142-180 | at every step that keeps the pin guard packets to the endpoint do not enter the tunnel |
| `Routing.NoLoopInRun` | internal/tunnel/controller.go:142-180 | the same for every world of a run that Connect or a rollback reports as guarded |
| `Routing.ScopedContained` | internal/tunnel/model.go:163-185 | everything a scoped plan captures is private, and neither endpoint nor gateway is captured |
| `Routing.ScopedRouting` | internal/tunnel/model.go:135-149 | an address goes through the device exactly if a scoped prefix beats every route it had; all others keep their route, the endpoint goes to the gateway |
| `RouteMask.MaskBitsExact` | internal/darwinnet/route.go:282-292 | the popcount-and-shift test accepts exactly n ones then zeros, and returns n |
| `RouteMask.ScanMask` | internal/darwinnet/route.go:263-279 | the byte and bit loop accepts exactly n ones then zeros, and returns n |
| `RouteMask.ScanAgrees` | internal/darwinnet/route.go:259-292 | on IPv4 masks both compute the same function |
| `RouteMask.ParseMaskBits` | internal/darwinnet/route.go:243-280 | a mask field of any form is read as its length in ones, or refused |
| `RouteMask.ParseRoutePrefix` | internal/darwinnet/route.go:201-230 | a report parses to the prefix it stands for, field by field in the order of preference |
| `RouteMask.ReportsAgree` | internal/darwinnet/route.go:201-230 | length, hexadecimal mask and dotted mask of one route parse to the same prefix |
| `RouteMask.MasksOf` | internal/darwinnet/route.go:243-280 | every length has a mask of each kind that is read as that length |
| `JournalStore.CrashClean` | internal/state/journal.go:79-129 | after a crash at any point each session has one whole valid journal that could surface, and the store is clean again |
| `JournalStore.PublishStep` | internal/state/journal.go:42-48 | linking or renaming a synced file adds one directory version in which the session has the new journal |
| `JournalStore.MaySurface` | internal/state/journal.go:73-76 | a write adds one journal to those a crash may bring back, and a write that succeeds leaves no other, as the transaction assumes of its store |
| `JournalStore.Store.WriteTemporary` | internal/state/journal.go:160-181 | a temporary file, whole or partial, changes nothing for any session; it succeeds exactly if nothing fails, and then its bytes are synced; once created it stays when it fails |
| `JournalStore.Store.Create` | internal/state/journal.go:25-50 | at every step a crash leaves the old state or the whole new journal; never over another journal; the link decides, and a sync that fails after it takes nothing back; success is durable; undisturbed no temporary file stays |
| `JournalStore.Store.Update` | internal/state/journal.go:52-77 | the same for replacing a journal, where the rename decides |
| `JournalStore.Store.Delete` | internal/state/journal.go:131-145 | at every step a crash leaves the journal or none; the removal decides; success is durable |
| `JournalStore.Store.Load` | internal/state/journal.go:79-129 | returns the session's journal; nothing the store wrote and no crash makes it refuse one |
| `Connection.Service.LoadMetadata` | internal/connection/state.go:38-60 | reads the record exactly, unless a command fails |
| `Connection.Service.SaveMetadata` | internal/connection/state.go:62-100 | the record is the old or the new one, the new one on success; replacing none or the same session loses sight of nothing |
| `Connection.Service.DeleteMetadata` | internal/connection/state.go:102-108 | the record is the old one or none; without a journal nothing is lost sight of |
| `Connection.Service.HelperDies` | internal/wgbackend/backend.go:52-54 | the death of the helper takes the device and some of its routes, and keeps everything on record |
| `Connection.Service.HelperExits` | internal/helperdaemon/daemon.go:103-109 | so does its end with the deferred Disconnect, whatever comes of it; undisturbed the routes in the journal decide |
| `Connection.Service.CallConnect` | internal/helperdaemon/daemon.go:65-114 | answers yes only if the tunnel is up and can be undone; undisturbed exactly if host and choice are favourable and verified; with a lost reply the helper may be dead or alive; whatever it leaves belongs to the recorded session and is recoverable |
| `Connection.Service.CallDisconnect` | internal/helperdaemon/daemon.go:185-212 | answers yes only after the session's rollback is complete; undisturbed the routes in the journal decide; with a lost reply the helper may be dead or alive |
| `Connection.Service.ConnectLocked` | internal/connection/service.go:72-148 | never displaces a recorded session; the record left is that of the choice, field by field, and none means an untouched machine; done means that record, phase connected, and the plan standing, undisturbed exactly on a promising host; the helper is asked to connect once, and to disconnect only if the second record fails, after which one failure leaves no journal |
| `Connection.Service.Confirm` | internal/connection/service.go:140-147 | the second record, or the tunnel is taken down again |
| `Connection.Service.DisconnectLocked` | internal/connection/service.go:159-177 | the record goes only after the rollback, with the host given back; the helper is asked first; undisturbed the routes in the journal decide; the result is of the recorded session |
| `Connection.Service.Reconnect` | internal/connection/service.go:209-227 | the recommender is asked for the country and city on record; the other session begins only on a machine from which the old one has gone, and starts from what the old one gave back; done means its record, field by field; undisturbed it ends the one and starts the other |
| `Connection.Perform` | internal/connection/service.go:72-227 | each operation makes of the machine what `Follows` allows, and keeps the pre-image of the session in hand what the host was at the start of the run, less twins |
| `Connection.EveryRun` | internal/connection/service.go:72-227 | over any run of operations, helper deaths and exits, with any schedule of failures for each, each machine follows from the one before by its operation and a journal is only ever the recorded session's; every undisturbed Disconnect leaves no session and the host of the start, less the twins of the plans, hence exactly that host without twins |
| `Credentials.Keychain.RollBack` | internal/loginflow/service.go:103-110 | both items are put back, each unless its own restore fails, and the flag says exactly whether one did |
| `Credentials.Keychain.Restore` | internal/loginflow/service.go:112-121 | puts the captured item back, also when it was absent |
| `Credentials.Keychain.Login` | internal/loginflow/service.go:44-88 | told from the fates of its commands, the lock's first: the pair left and the errors reported, with the account only on success |
| `Credentials.Keychain.LogoutLocal` | internal/authstate/service.go:78-134 | the same for removing the items there are |
| `Credentials.AllOrNothing` | internal/loginflow/service.go:73-110 | only a failed write and a failed restore after it leave a rollback incomplete; otherwise all or nothing, and nothing if it fails |
| `Credentials.Compensated` | internal/loginflow/service.go:73-121 | if no command after the first failed write fails, the pair is as it was and only the transaction error is reported |
| `Credentials.Keychain.Inspect` | internal/authstate/service.go:53-76 | the status is that of the stored pair; repair is called for exactly if one item is missing |
| `Credentials.EveryRun` | internal/loginflow/service.go:44-121 | over any run of logins and logouts, with any schedule of failures for each, each pair and report follow from the pair before by their call; up to the first incomplete rollback every pair is one that an earlier call meant to leave, so a consistent start stays consistent; every undisturbed call leaves what it means to |
| `Credentials.RunExplained` | internal/loginflow/service.go:73-110 | all-or-nothing calls compose: up to the first incomplete rollback the pair is the first one or what an earlier call meant |
| `Framing.FrameRoundTrip` | internal/helperproto/protocol.go:78-140 | whatever request and keys are accepted for encoding decode to exactly themselves |
| `Framing.PrefixFree` | internal/helperproto/protocol.go:107-148 | no accepted frame is a proper prefix of another |
| `Framing.ResponseRoundTrip` | internal/helperproto/protocol.go:213-262 | a response is read back, and what follows it is untouched |
| `Framing.DecodeStream` | internal/helperproto/protocol.go:235-262 | concatenated responses are read back one by one, in order, without a byte too many |
| `Framing.WriteFrame` | internal/helperproto/protocol.go:78-105 | succeeds exactly on acceptable arguments without write failures, with exactly the frame written; whatever happens, what is written is the front of what the arguments are good for |
| `Framing.WriteSecrets` | internal/helperproto/protocol.go:313-330 | writes exactly the key frame of usable keys, or the front of it |
| `Framing.AllZero` | internal/helperproto/protocol.go:364-370 | or-ing all bytes is zero exactly if all are |
| `Framing.ValidateSecrets` | internal/helperproto/protocol.go:291-302 | accepts exactly two different keys that are not zero |
| `Framing.DecodeFrame` | internal/helperproto/protocol.go:107-140 | reading step by step gives what the whole input means, trailing bytes refused |
| `Framing.DecodeResponse` | internal/helperproto/protocol.go:235-262 | reads one response and leaves the rest |
| `HelperDaemon.VerifyOwnership` | internal/helperdaemon/daemon.go:239-258 | accepts a host exactly if default route, every planned route and DNS servers agree with the journal and no command fails |
| `HelperDaemon.EstablishedAgrees` | internal/helperdaemon/daemon.go:239-258 | what a successful full Connect leaves is accepted |
| `HelperDaemon.CheckAfterConnect` | internal/helperdaemon/daemon.go:239-258 | after a full Connect that came up through any failures an undisturbed check accepts what it left |
| `HelperDaemon.ScopedNeverAgrees` | internal/helperdaemon/daemon.go:253-256 | a scoped tunnel is never accepted |
| `HelperDaemon.Serve` | internal/helperdaemon/daemon.go:116-155 | for any events it stops at the first that ends the session or completes three rejected checks in a row; told from the events alone: it gives up only at the third of three rejected timeouts, each the first to come ten seconds after the last was done, and always for three such whose first was due |
| `HelperDaemon.DueChecked` | internal/helperdaemon/daemon.go:128-142 | no due check is skipped: ten seconds after the start and after every earlier timeout was done with, or for the first time that late, a timeout is checked |
| `HelperDaemon.NextChecked` | internal/helperdaemon/daemon.go:128-142 | after a check the next is made at the first timeout ten seconds after it was done with, and none before |
| `HelperDaemon.MissesOver` | internal/helperdaemon/daemon.go:133-140 | three rejected checks in a row, each following the last, end it |
| `HelperDaemon.ChecksSpaced` | internal/helperdaemon/daemon.go:120-142 | the first check comes ten seconds after the start at the earliest, each other ten seconds after the last was done |
| `HelperDaemon.SuccessResets` | internal/helperdaemon/daemon.go:133-135 | three rejected in a row lie all before an accepted check or all after it |
| `WgBackend.KeyPair.Wipe` | internal/helperproto/protocol.go:304-311 | both keys are zero |
| `WgBackend.NewOneShotSecrets` | internal/wgbackend/secrets.go:21-31 | takes usable keys and wipes the caller's copy, or refuses and leaves it |
| `WgBackend.Manager.Build` | internal/wgbackend/backend.go:96-118 | the fingerprint first, then a runtime set up as requested, with the client's key and the peer's in their places; it succeeds exactly if the peer is approved and no command fails |
| `WgBackend.Manager.Create` | internal/wgbackend/backend.go:72-136 | a device is returned exactly if the request fits, the keys' peer has the approved fingerprint and no command fails; its runtime is open, set up as requested; otherwise nothing stays open; no runtime is ever made for another peer; the keys serve once and are zero after |
| `WgBackend.Manager.DeleteOwned` | internal/wgbackend/backend.go:138-156 | closes the session's own runtime and no other, exactly if the handle is its own and no command fails; an unknown session succeeds |
| `WgBackend.ServesTransaction` | internal/wgbackend/backend.go:138-156 | this is what the transaction expects of its device manager |
| `WgBackend.EveryRun` | internal/wgbackend/backend.go:72-156 | over any run of calls, whatever fails, each view of the manager follows from the one before: a session appears only for a request that fits, with its own runtime; at most one runtime is ever created, open runtimes are those of the sessions, keys are untouched until they are lent and zero from then on |

## Left out

- Command runners and the text of `route`, `ifconfig`, `networksetup` and `ping`: adapters are modelled by their effect on the host; a lookup of an exact destination is taken to be answered exactly.
- Foreign edits during a Connect or Disconnect: the whole-life results assume none; `ForeignRouteKept` and `ForeignServersKept` treat them at the level of adapter calls.
- JSON, SHA-256, base64 and regular expressions: abstract functions with the laws stated where they are used; strings are sequences of single-byte characters.
- Locks, file permissions, owners and sockets: that a call takes its lock first is proved, mutual exclusion is assumed; a permission check that fails is a failure without effect, and the error of releasing a lock is kept only in `Credentials`.
- Checks for missing dependencies of the services: a service is complete.
- Real time and timeouts: failures at any point; only the spacing of health checks is modelled.
- JournalStore.Store.Create: refines the transaction's store for journals within the size limit; a larger one is refused.
- Connection.Service.CallDisconnect: takes the helper that answers to be the owner of the device or the only one; a second helper beside a living owner is treated by `TunnelInstances.SecondHelper` and does not occur in the runs of `Connection.EveryRun`.
- TunnelProtocol.OpenOutcome: opening the device leaves the routing table alone; the kernel's own host route for the point-to-point peer 10.5.0.1 (internal/helperdaemon/daemon.go:79-82, internal/darwinnet/address.go:33-35), which comes and goes with the interface, is not modelled.
- TunnelLifetime.PowerLoss: the host is taken as the step left it; what else a restart clears is not modelled.
- WgBackend.Manager.DeleteOwned: a failed close is taken to leave the runtime open, and closing a half-built runtime to succeed.
- Connection.Service.CallConnect: the helper's verifier is an arbitrary verdict; a handshake is not modelled.
- The user interface, catalogue, recommendation, provisioning, Keychain adapter and validation harnesses: plumbing around the parts modelled here.
