/** The userspace device manager and its one-shot key source (internal/wgbackend/backend.go, secrets.go).

    Runtimes are numbered as they are created. Closing a runtime that was never handed out is taken to succeed;
    a failed close of one that was leaves it open. */
module WgBackend {
  import opened Net
  import opened Faults
  import opened ByteStrings
  import opened TunnelModel
  import opened DarwinNet
  import opened TunnelProtocol

  /** A raw key pair that is wiped in place. */
  class KeyPair {
    const client: array<Byte>
    const peer: array<Byte>

    constructor (clientKey: Bytes, peerKey: Bytes)
      requires |clientKey| == 32 && |peerKey| == 32
      ensures Shaped() && fresh(client) && fresh(peer) && client[..] == clientKey && peer[..] == peerKey
    {
      client := new Byte[32](i requires 0 <= i < 32 => clientKey[i]);
      peer := new Byte[32](i requires 0 <= i < 32 => peerKey[i]);
      new;
      assert client[..] == clientKey && peer[..] == peerKey;
    }

    predicate Shaped() { client.Length == 32 && peer.Length == 32 && client != peer }

    predicate Usable()
      reads client, peer
    {
      !IsZero(client[..]) && !IsZero(peer[..]) && client[..] != peer[..]
    }

    predicate Wiped()
      reads client, peer
    {
      IsZero(client[..]) && IsZero(peer[..])
    }

    function Content(): Bytes
      reads client, peer
    {
      client[..] + peer[..]
    }

    method Wipe()
      requires Shaped()
      modifies client, peer
      ensures Wiped()
    {
      for i := 0 to client.Length
        invariant forall k :: 0 <= k < i ==> client[k] == 0
      {
        client[i] := 0;
      }
      for i := 0 to peer.Length
        invariant forall k :: 0 <= k < i ==> peer[k] == 0
        invariant forall k :: 0 <= k < client.Length ==> client[k] == 0
      {
        peer[i] := 0;
      }
    }
  }

  /** Lends a session's keys once. */
  class OneShotSecrets {
    const sessionId: string
    const keys: KeyPair
    var consumed: bool

    /** Takes a copy of the keys and wipes the caller's. */
    constructor (sessionId: string, secrets: KeyPair)
      requires secrets.Shaped() && ValidSessionID(sessionId) && secrets.Usable()
      modifies secrets.client, secrets.peer
      ensures Inv() && !consumed && this.sessionId == sessionId && secrets.Wiped()
      ensures fresh(keys) && fresh(keys.client) && fresh(keys.peer)
      ensures keys.client[..] == old(secrets.client[..]) && keys.peer[..] == old(secrets.peer[..])
    {
      this.sessionId := sessionId;
      var copy := new KeyPair(secrets.client[..], secrets.peer[..]);
      this.keys := copy;
      this.consumed := false;
      new;
      secrets.Wipe();
    }

    /** Once lent, the keys are gone. */
    ghost predicate Inv()
      reads this, keys.client, keys.peer
    {
      keys.Shaped() && (consumed ==> keys.Wiped()) && (!consumed ==> keys.Usable())
    }
  }

  /** Refuses unusable keys, and then leaves them alone. */
  method NewOneShotSecrets(sessionId: string, secrets: KeyPair) returns (source: OneShotSecrets?)
    requires secrets.Shaped()
    modifies secrets.client, secrets.peer
    ensures source != null <==> ValidSessionID(sessionId) && old(secrets.Usable())
    ensures source == null ==>
      secrets.client[..] == old(secrets.client[..]) && secrets.peer[..] == old(secrets.peer[..])
    ensures source != null ==> secrets.Wiped() && fresh(source) && fresh(source.keys.client) && fresh(source.keys.peer)
    ensures source != null ==> source.Inv() && !source.consumed && source.sessionId == sessionId
    ensures source != null ==>
      source.keys.client[..] == old(secrets.client[..]) && source.keys.peer[..] == old(secrets.peer[..])
  {
    if !ValidSessionID(sessionId) || !secrets.Usable() {
      return null;
    }
    source := new OneShotSecrets(sessionId, secrets);
  }

  datatype Spec = Spec(sessionId: string, address: Prefix, mtu: int, endpoint: AddrPort, peerFingerprint: string)

  predicate AnyHex(c: char) { IsHex(c) || 'A' <= c <= 'F' }

  predicate ValidSpec(s: Spec) {
    && ValidSessionID(s.sessionId) && s.address.IsValid() && s.address.addr.V4? && 1280 <= s.mtu <= 9000
    && s.endpoint.addr.V4? && s.endpoint.port != 0
    && |s.peerFingerprint| == 64 && forall i :: 0 <= i < 64 ==> AnyHex(s.peerFingerprint[i])
  }

  datatype Owned = Owned(handle: DeviceHandle, runtime: nat)

  type Sessions = map<string, Owned>

  function DeviceOf(s: Sessions, id: string): Option<DeviceHandle> { if id in s then Some(s[id].handle) else None }

  /** The session has a device, and it is that of the handle, if one is given. */
  predicate OwnedAs(s: Sessions, id: string, handle: Option<DeviceHandle>) {
    ValidSessionID(id) && id in s && (handle.Some? ==> handle.value == s[id].handle)
  }

  /** The runtimes that the sessions own. */
  function Runtimes(s: Sessions): set<nat> { set id | id in s :: s[id].runtime }

  /** No runtime is owned twice. */
  ghost predicate Separate(s: Sessions) { forall a, b :: a in s && b in s && a != b ==> s[a].runtime != s[b].runtime }

  /** A runtime, as far as it has been set up. */
  datatype Runtime = Runtime(
    mtu: int, endpoint: Option<AddrPort>, clientKey: Bytes, peerKey: Bytes, up: bool, address: Option<Prefix>)

  /** A runtime that is set up as the request has it. */
  function Configured(spec: Spec, clientKey: Bytes, peerKey: Bytes): Runtime {
    Runtime(spec.mtu, Some(spec.endpoint), clientKey, peerKey, true, Some(spec.address))
  }

  class Manager {
    const source: OneShotSecrets
    const pid: int
    const runner: Runner
    /** Stands for SHA-256 in hexadecimal. */
    const digest: Bytes -> string
    var sessions: Sessions
    /** The runtimes that are open. */
    var open_: map<nat, Runtime>
    /** How many were ever created. */
    var created: nat

    constructor (source: OneShotSecrets, pid: int, runner: Runner, digest: Bytes -> string)
      requires source.Inv() && !source.consumed
      ensures this.source == source && this.pid == pid && this.runner == runner && this.digest == digest
      ensures Inv() && sessions == map[] && open_ == map[] && created == 0
    {
      this.source, this.pid, this.runner, this.digest := source, pid, runner, digest;
      this.sessions, this.open_, this.created := map[], map[], 0;
    }

    /** The open runtimes are exactly those the sessions own, and the keys made at most one. */
    ghost predicate Inv()
      reads this, source, source.keys.client, source.keys.peer
    {
      && source.Inv() && open_.Keys == Runtimes(sessions) && Separate(sessions)
      && (forall r :: r in open_ ==> r < created)
      && (forall id :: id in sessions ==> ValidDevice(sessions[id].handle))
      && created <= if source.consumed then 1 else 0
    }

    /** What can be seen between two calls. */
    function Seen(): View
      reads this, source, source.keys.client, source.keys.peer
    {
      View(sessions, open_, created, source.consumed, source.keys.Content())
    }

    /** What the borrowed keys are used for: the fingerprint, then the runtime with its configuration. A failure
        after the runtime exists is reported with it. */
    method Build(spec: Spec, keys: KeyPair) returns (ok: bool, made: Option<nat>)
      requires keys.Shaped()
      modifies this`open_, this`created, runner
      ensures runner.Went()
      ensures made.None? ==> !ok && open_ == old(open_) && created == old(created)
      ensures made.Some? ==> made.value == old(created) && created == old(created) + 1
      ensures made.Some? ==> open_.Keys == old(open_).Keys + {made.value}
      ensures made.Some? ==> forall r :: r in open_ && r != made.value ==> r in old(open_) && open_[r] == old(open_)[r]
      ensures made.Some? ==> keys.Usable() && digest(keys.peer[..]) == spec.peerFingerprint
      ensures ok ==> made.Some? && open_[made.value] == Configured(spec, keys.client[..], keys.peer[..])
      ensures ok <==> runner.Quiet() && keys.Usable() && digest(keys.peer[..]) == spec.peerFingerprint
    {
      if !keys.Usable() || digest(keys.peer[..]) != spec.peerFingerprint {
        return false, None;
      }
      ok := runner.Attempt();
      if !ok {
        return false, None;
      }
      var n := created;
      made := Some(n);
      open_, created := open_[n := Runtime(spec.mtu, None, [], [], false, None)], n + 1;
      ok := runner.Attempt();
      if !ok {
        return;
      }
      open_ := open_[n := Runtime(spec.mtu, Some(spec.endpoint), keys.client[..], keys.peer[..], false, None)];
      ok := runner.Attempt();
      if !ok {
        return;
      }
      open_ := open_[n := open_[n].(up := true)];
      ok := runner.Attempt();
      if ok {
        open_ := open_[n := open_[n].(address := Some(spec.address))];
      }
    }

    /** The keys are there for this session and its peer, and nothing is wrong with the request. */
    predicate Servable(spec: Spec, name: string)
      reads this, source, source.keys.client, source.keys.peer
    {
      Lendable(spec) && ValidInterface(name) && digest(source.keys.peer[..]) == spec.peerFingerprint
    }

    /** The keys are there for this session. */
    predicate Lendable(spec: Spec)
      reads this, source
    {
      && ValidSpec(spec) && pid > 0 && spec.sessionId !in sessions
      && !source.consumed && spec.sessionId == source.sessionId
    }

    /** `name` is the interface name the runtime reports. */
    method Create(spec: Spec, name: string) returns (r: Option<DeviceHandle>)
      requires Inv()
      modifies this`sessions, this`open_, this`created, source, source.keys.client, source.keys.peer, runner
      ensures runner.Went()
      ensures Inv()
      // It is made for a request that fits, and for the approved peer, or not at all.
      ensures r.Some? <==> old(Servable(spec, name)) && runner.Quiet()
      ensures created == old(created) || (created == old(created) + 1 && old(Lendable(spec)))
      ensures created != old(created) ==> digest(old(source.keys.peer[..])) == spec.peerFingerprint
      // A session's device appears only with the handle that is returned; nothing else is touched.
      ensures r.Some? ==> r.value == DeviceHandle(name, pid) && created == old(created) + 1
      ensures r.Some? ==> sessions == old(sessions)[spec.sessionId := Owned(r.value, old(created))]
      ensures r.Some? ==> open_ == old(open_)[old(created) :=
        Configured(spec, old(source.keys.client[..]), old(source.keys.peer[..]))]
      ensures r.None? ==> sessions == old(sessions) && open_ == old(open_)
      // The keys are used up by the first call that gets them, whatever it comes to.
      ensures source.consumed <==> old(source.consumed) || (old(Lendable(spec)) && old(runner.fates(runner.run)).Works?)
      ensures old(Lendable(spec)) && runner.Quiet() ==> source.consumed
      ensures source.consumed ==> source.keys.Wiped()
      ensures old(source.consumed) || !source.consumed ==> source.keys.Content() == old(source.keys.Content())
    {
      hide ValidSpec, Runtimes, Separate;
      ghost var before, client, peer := open_, source.keys.client[..], source.keys.peer[..];
      if !ValidSpec(spec) || pid <= 0 || spec.sessionId in sessions {
        return None;
      }
      var current := runner.Attempt();
      if !current || source.consumed || spec.sessionId != source.sessionId {
        return None;
      }
      source.consumed := true;
      var ok, made := Build(spec, source.keys);
      source.keys.Wipe();
      var handle := DeviceHandle(name, pid);
      if !ok || !ValidDevice(handle) {
        if made.Some? {
          open_ := open_ - {made.value};
        }
        assert open_ == before;
        return None;
      }
      OpenOne(sessions, spec.sessionId, Owned(handle, made.value));
      sessions := sessions[spec.sessionId := Owned(handle, made.value)];
      assert open_ == before[made.value := Configured(spec, client, peer)];
      return Some(handle);
    }

    method DeleteOwned(sessionId: string, handle: Option<DeviceHandle>) returns (ok: bool)
      requires Inv()
      modifies this`sessions, this`open_, runner
      ensures runner.Went()
      ensures Inv()
      ensures sessions ==
              if OwnedAs(old(sessions), sessionId, handle) && runner.Quiet() then old(sessions) - {sessionId}
              else old(sessions)
      ensures ValidSessionID(sessionId) ==>
        DeletedOutcome(!runner.Quiet(), DeviceOf(old(sessions), sessionId), handle, DeviceOf(sessions, sessionId), ok)
      ensures !ValidSessionID(sessionId) ==> !ok
      // Nothing but the session's own runtime is closed.
      ensures open_ == if sessions == old(sessions) then old(open_) else old(open_) - {old(sessions)[sessionId].runtime}
    {
      if !ValidSessionID(sessionId) {
        return false;
      }
      if sessionId !in sessions {
        return true;
      }
      var owned := sessions[sessionId];
      if handle.Some? && handle.value != owned.handle {
        return false;
      }
      ok := runner.Attempt();
      if ok {
        CloseOne(sessions, sessionId);
        open_ := open_ - {owned.runtime};
        sessions := sessions - {sessionId};
      }
    }
  }

  lemma OpenOne(s: Sessions, id: string, o: Owned)
    requires Separate(s) && id !in s && o.runtime !in Runtimes(s)
    ensures Runtimes(s[id := o]) == Runtimes(s) + {o.runtime} && Separate(s[id := o])
  {
    var t := s[id := o];
    assert id in t && t[id] == o;
    forall r ensures r in Runtimes(t) <==> r in Runtimes(s) + {o.runtime} {
      if r in Runtimes(s) {
        var a :| a in s && s[a].runtime == r;
        assert a in t && t[a].runtime == r;
      }
    }
  }

  lemma CloseOne(s: Sessions, id: string)
    requires Separate(s) && id in s
    ensures Runtimes(s - {id}) == Runtimes(s) - {s[id].runtime} && Separate(s - {id}) && s - {id} != s
  {
    var t := s - {id};
    assert id !in t;
    forall r ensures r in Runtimes(t) <==> r in Runtimes(s) - {s[id].runtime} {
      if r in Runtimes(s) - {s[id].runtime} {
        var a :| a in s && s[a].runtime == r;
        assert a in t && t[a].runtime == r;
      }
    }
  }

  /** A removal that reports success leaves no device; a handle of another device closes nothing. */
  ghost predicate DeletedOutcome(flaky: bool, device: Option<DeviceHandle>, handle: Option<DeviceHandle>,
                                 device': Option<DeviceHandle>, ok: bool)
  {
    && (device' == device || device'.None?) && (ok <==> device'.None?)
    && (device.Some? && handle.Some? && handle != device ==> device' == device && !ok)
    && (!flaky && (device.Some? && handle.Some? ==> handle == device) ==> ok)
  }

  /** This is what the tunnel transaction expects of its device manager: the routes through a closed device go
      with it, others stay. */
  lemma ServesTransaction(flaky: bool, t: Table, device: Option<DeviceHandle>, handle: Option<DeviceHandle>,
                          t': Table, device': Option<DeviceHandle>, ok: bool)
    requires DeletedOutcome(flaky, device, handle, device', ok)
    requires if device' == device then t' == t else Purged(t, device, t')
    ensures CloseOutcome(flaky, t, device, handle, t', device', ok)
  {
  }

  // ---------- whole runs ----------

  datatype Operation = DoCreate(spec: Spec, name: string) | DoDelete(sessionId: string, handle: Option<DeviceHandle>)

  /** The manager and its key source between two calls. */
  datatype View = View(sessions: Sessions, open_: map<nat, Runtime>, created: nat, consumed: bool, keys: Bytes)

  /** The session the keys are for, the process, and the fingerprint of the peer's key. */
  datatype Party = Party(sessionId: string, pid: int, fingerprint: string)

  /** The keys are there for this session, and nothing is wrong with the request. */
  predicate Lends(p: Party, v: View, spec: Spec) {
    && ValidSpec(spec) && p.pid > 0 && spec.sessionId !in v.sessions
    && !v.consumed && spec.sessionId == p.sessionId
  }

  /** And it names the peer the keys are for. */
  predicate Fits(p: Party, v: View, spec: Spec, name: string) {
    Lends(p, v, spec) && ValidInterface(name) && spec.peerFingerprint == p.fingerprint
  }

  /** What a call makes of them: a session appears only for a request that fits, with its own runtime, and if no command
      fails, always. */
  ghost predicate Follows(quiet: bool, p: Party, v: View, op: Operation, v': View) {
    match op
    case DoCreate(spec, name) =>
      && (if quiet && Fits(p, v, spec, name) then
            && v'.sessions == v.sessions[spec.sessionId := Owned(DeviceHandle(name, p.pid), v.created)]
            && |v.keys| == 64
            && v'.open_ == v.open_[v.created := Configured(spec, v.keys[..32], v.keys[32..])]
          else v'.sessions == v.sessions && v'.open_ == v.open_)
      && (|| v'.created == v.created
          || (v'.created == v.created + 1 && Lends(p, v, spec) && spec.peerFingerprint == p.fingerprint))
      && (v.consumed ==> v' == v) && (v'.consumed && !v.consumed ==> Lends(p, v, spec))
      && (quiet && Lends(p, v, spec) ==> v'.consumed)
    case DoDelete(id, handle) =>
      if OwnedAs(v.sessions, id, handle) && quiet then
        v' == v.(sessions := v.sessions - {id}, open_ := v.open_ - {v.sessions[id].runtime})
      else
        v' == v
  }

  /** At most one runtime was ever created, no more than that one is open, and keys that were lent are gone. */
  ghost predicate OneRuntime(keys: Bytes, v: View) {
    && v.open_.Keys == Runtimes(v.sessions) && v.open_.Keys <= {0} && v.created <= 1
    && (v.open_ != map[] ==> v.created == 1)
    && (v.created == 1 ==> v.consumed) && if v.consumed then IsZero(v.keys) else v.keys == keys
  }

  lemma SeenOnce(m: Manager, keys: Bytes)
    requires m.Inv() && (!m.source.consumed ==> m.source.keys.Content() == keys)
    ensures OneRuntime(keys, m.Seen())
  {
    hide Runtimes, Separate;
    assert m.open_ != map[] ==> exists r :: r in m.open_;
  }

  /** What is seen of a manager whose keys were not lent yet. */
  lemma SeenParty(m: Manager, p: Party, client: Bytes, peer: Bytes, spec: Spec, name: string)
    requires p.sessionId == m.source.sessionId && p.pid == m.pid && p.fingerprint == m.digest(peer)
    requires m.Inv() && |client| == 32 && |peer| == 32
    requires !m.source.consumed ==> m.source.keys.Content() == client + peer
    ensures Lends(p, m.Seen(), spec) <==> m.Lendable(spec)
    ensures Fits(p, m.Seen(), spec, name) <==> m.Servable(spec, name)
    ensures !m.source.consumed ==> m.source.keys.client[..] == client && m.source.keys.peer[..] == peer
  {
    hide ValidSpec, ValidInterface, Runtimes, Separate;
    if !m.source.consumed {
      assert m.source.keys.Content()[..32] == m.source.keys.client[..] && (client + peer)[..32] == client;
      assert m.source.keys.Content()[32..] == m.source.keys.peer[..] && (client + peer)[32..] == peer;
    }
  }

  method Perform(m: Manager, op: Operation, ghost p: Party, ghost client: Bytes, ghost peer: Bytes)
    requires p.sessionId == m.source.sessionId && p.pid == m.pid && p.fingerprint == m.digest(peer)
    requires m.Inv() && |client| == 32 && |peer| == 32
    requires !m.source.consumed ==> m.source.keys.Content() == client + peer
    modifies m`sessions, m`open_, m`created, m.source, m.source.keys.client, m.source.keys.peer, m.runner
    ensures m.runner.Went()
    ensures m.Inv() && Follows(m.runner.Quiet(), p, old(m.Seen()), op, m.Seen())
    ensures !m.source.consumed ==> m.source.keys.Content() == client + peer
  {
    hide Runtimes, ValidSpec, ValidInterface, ValidSessionID, Separate, IsZero, Manager.Servable, Fits;
    match op {
      case DoCreate(spec, name) =>
        SeenParty(m, p, client, peer, spec, name);
        ghost var keys := m.source.keys.Content();
        assert !m.source.consumed ==> keys[..32] == client && keys[32..] == peer;
        var r := m.Create(spec, name);
      case DoDelete(id, handle) =>
        ghost var was := m.sessions;
        var ok := m.DeleteOwned(id, handle);
        assert id in was ==> was - {id} != was by { assert id !in was - {id}; }
    }
  }

  /** Any sequence of calls, whatever commands fail: `history` has the manager before each call and after the last,
      `quiet` says in which no command failed. */
  method EveryRun(sessionId: string, client: Bytes, peer: Bytes, pid: int, digest: Bytes -> string, fates: nat -> Fate,
                  ops: seq<Operation>)
    returns (history: seq<View>, quiet: seq<bool>)
    requires ValidSessionID(sessionId) && |client| == 32 && |peer| == 32
    requires !IsZero(client) && !IsZero(peer) && client != peer
    ensures |history| == |ops| + 1 && history[0] == View(map[], map[], 0, false, client + peer)
    ensures |quiet| == |ops| && (AllWork(fates) ==> forall i :: 0 <= i < |ops| ==> quiet[i])
    ensures forall i :: 0 <= i < |ops| ==>
      Follows(quiet[i], Party(sessionId, pid, digest(peer)), history[i], ops[i], history[i + 1])
    ensures forall i :: 0 <= i < |history| ==> OneRuntime(client + peer, history[i])
  {
    hide Runtimes, ValidSpec, ValidInterface, ValidSessionID, Separate, IsZero, Follows, OneRuntime, AllWork;
    var keys := new KeyPair(client, peer);
    var source := new OneShotSecrets(sessionId, keys);
    var clock: nat -> int := *;
    var runner := new Runner(fates, clock);
    var m := new Manager(source, pid, runner, digest);
    history, quiet := Calls(m, Party(sessionId, pid, digest(peer)), client, peer, ops);
  }

  method Calls(m: Manager, ghost p: Party, ghost client: Bytes, ghost peer: Bytes, ops: seq<Operation>)
    returns (history: seq<View>, quiet: seq<bool>)
    requires p.sessionId == m.source.sessionId && p.pid == m.pid && p.fingerprint == m.digest(peer)
    requires m.Inv() && |client| == 32 && |peer| == 32
    requires !m.source.consumed ==> m.source.keys.Content() == client + peer
    modifies m`sessions, m`open_, m`created, m.source, m.source.keys.client, m.source.keys.peer, m.runner
    ensures |history| == |ops| + 1 && history[0] == old(m.Seen())
    ensures |quiet| == |ops| && (AllWork(m.runner.fates) ==> forall i :: 0 <= i < |ops| ==> quiet[i])
    ensures forall i :: 0 <= i < |ops| ==> Follows(quiet[i], p, history[i], ops[i], history[i + 1])
    ensures forall i :: 0 <= i < |history| ==> OneRuntime(client + peer, history[i])
  {
    hide Runtimes, ValidSpec, ValidInterface, ValidSessionID, Separate, IsZero, Follows, OneRuntime, AllWork;
    history, quiet := [m.Seen()], [];
    SeenOnce(m, client + peer);
    for i := 0 to |ops|
      invariant m.Inv() && (!m.source.consumed ==> m.source.keys.Content() == client + peer)
      invariant |quiet| == i && forall k :: 0 <= k < i && AllWork(m.runner.fates) ==> quiet[k]
      invariant |history| == i + 1 && history[0] == old(m.Seen()) && history[i] == m.Seen()
      invariant forall k :: 0 <= k < i ==> Follows(quiet[k], p, history[k], ops[k], history[k + 1])
      invariant forall k :: 0 <= k <= i ==> OneRuntime(client + peer, history[k])
    {
      var failed := m.runner.failed;
      Perform(m, ops[i], p, client, peer);
      SeenOnce(m, client + peer);
      history, quiet := history + [m.Seen()], quiet + [m.runner.failed == failed];
    }
  }
}
