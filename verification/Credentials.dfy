/** The two stored credentials and the transactions over them (internal/loginflow/service.go,
    internal/authstate/service.go).

    The store keeps an access token and a private key. A failed write or removal may or may not have changed the
    one item it was for; nothing changes both at once. */
module Credentials {
  import opened Net
  import opened Faults

  datatype Kind = AccessToken | PrivateKey
  type Secret = seq<char>

  datatype Pair = Pair(token: Option<Secret>, key: Option<Secret>) {
    function Item(kind: Kind): Option<Secret> { if kind == AccessToken then token else key }

    function With(kind: Kind, value: Option<Secret>): Pair {
      if kind == AccessToken then Pair(value, key) else Pair(token, value)
    }

    /** Both or neither. */
    predicate Consistent() { token.Some? <==> key.Some? }
  }

  datatype Failure = CredentialLock | Provision | CredentialRead | Transaction | RollbackIncomplete

  datatype Reading = Unreadable | NotFound | Value(secret: Secret)
  datatype Removal = Removed | Absent | RemovalFailed

  datatype State = LoggedOut | LoggedIn | Inconsistent
  datatype Status = Status(state: State, hasToken: bool, hasKey: bool, repairNeeded: bool)

  function StatusOf(hasToken: bool, hasKey: bool): Status {
    var state := if hasToken && hasKey then LoggedIn else if !hasToken && !hasKey then LoggedOut else Inconsistent;
    Status(state, hasToken, hasKey, state == Inconsistent)
  }

  // ---------- what a call is to do, and what becomes of it ----------

  /** What the service provisions for a token. */
  datatype Provisioning = Provisioning(accountId: string, key: Secret)

  datatype Operation = DoLogin(token: Secret, provisioned: Option<Provisioning>) | DoLogout

  /** What a call is to leave. Without a key from the service a login can leave nothing. */
  function Meant(op: Operation): Option<Pair> {
    match op
    case DoLogin(token, provisioned) =>
      if provisioned.None? then None else Some(Pair(Some(token), Some(provisioned.value.key)))
    case DoLogout => Some(Pair(None, None))
  }

  /** One item to be replaced, or removed. */
  datatype Write = Write(kind: Kind, value: Option<Secret>)

  /** The writes it takes: a login writes both items, a logout removes those there are. */
  function Writes(op: Operation, before: Pair): seq<Write> {
    match op
    case DoLogin(token, provisioned) =>
      if provisioned.None? then []
      else [Write(AccessToken, Some(token)), Write(PrivateKey, Some(provisioned.value.key))]
    case DoLogout =>
      (if before.token.Some? then [Write(AccessToken, None)] else [])
      + if before.key.Some? then [Write(PrivateKey, None)] else []
  }

  /** What the writes leave if they are made one after the other until one fails. */
  function Left(fates: nat -> Fate, first: nat, writes: seq<Write>, pair: Pair): Pair
    decreases |writes|
  {
    if writes == [] then pair else
      var next := if fates(first).FailsBefore? then pair else pair.With(writes[0].kind, writes[0].value);
      if fates(first).Works? then Left(fates, first + 1, writes[1..], next) else next
  }

  /** The first of `n` commands that fails. */
  function FirstFailure(fates: nat -> Fate, from: nat, n: nat): (k: Option<nat>)
    ensures k.Some? ==> from <= k.value < from + n && !fates(k.value).Works?
    ensures forall i :: from <= i < (if k.Some? then k.value else from + n) ==> fates(i).Works?
    decreases n
  {
    if n == 0 then None else if !fates(from).Works? then Some(from) else FirstFailure(fates, from + 1, n - 1)
  }

  /** The lock is taken and both items are read. */
  predicate Reached(fates: nat -> Fate, from: nat, op: Operation) {
    fates(from).Works? && fates(from + 1).Works? && fates(from + 2).Works? && Meant(op).Some?
  }

  /** What becomes of the writes, told from the fates of the commands from the first of them on: they are all made, or,
      if one fails, both items are put back, but for a restore that fails too. */
  predicate Written(fates: nat -> Fate, first: nat, writes: seq<Write>, before: Pair, after: Pair,
                    errors: set<Failure>)
  {
    var failed, left := FirstFailure(fates, first, |writes|), Left(fates, first, writes, before);
    if failed.None? then
      after == left && errors <= {CredentialLock}
    else
      var w := failed.value;
      && Transaction in errors && errors <= {Transaction, RollbackIncomplete, CredentialLock}
      && (RollbackIncomplete in errors <==> !fates(w + 1).Works? || !fates(w + 2).Works?)
      && after.token == (if fates(w + 1).FailsBefore? then left.token else before.token)
      && after.key == (if fates(w + 2).FailsBefore? then left.key else before.key)
  }

  /** What a call reports that does not come to its writes. */
  function EarlyErrors(op: Operation): set<Failure> {
    match op
    case DoLogin(_, provisioned) => if provisioned.None? then {Provision} else {Transaction}
    case DoLogout => {CredentialRead}
  }

  /** What a call left and reported, told from the fates of its commands, the lock's first. */
  predicate Transacted(fates: nat -> Fate, from: nat, before: Pair, op: Operation, after: Pair, errors: set<Failure>) {
    if !Reached(fates, from, op) then
      && after == before
      && if !fates(from).Works? then errors == {CredentialLock}
         else errors == EarlyErrors(op) || errors == EarlyErrors(op) + {CredentialLock}
    else
      Written(fates, from + 3, Writes(op, before), before, after, errors)
  }

  lemma FirstOfTwo(fates: nat -> Fate, k: nat)
    ensures FirstFailure(fates, k, 0).None? && FirstFailure(fates, k, 1) == if !fates(k).Works? then Some(k) else None
    ensures FirstFailure(fates, k, 2) ==
      if !fates(k).Works? then Some(k) else if !fates(k + 1).Works? then Some(k + 1) else None
  {
    assert FirstFailure(fates, k + 2, 0).None? && FirstFailure(fates, k, 0).None?;
  }

  lemma LeftOfTwo(fates: nat -> Fate, k: nat, a: Write, b: Write, pair: Pair)
    ensures Left(fates, k, [], pair) == pair
    ensures Left(fates, k, [a], pair) == if fates(k).FailsBefore? then pair else pair.With(a.kind, a.value)
    ensures Left(fates, k, [b], pair) == if fates(k).FailsBefore? then pair else pair.With(b.kind, b.value)
    ensures Left(fates, k, [a, b], pair) ==
      var next := if fates(k).FailsBefore? then pair else pair.With(a.kind, a.value);
      if fates(k).Works? && !fates(k + 1).FailsBefore? then next.With(b.kind, b.value) else next
  {
    assert [a, b][1..] == [b] && [a][1..] == [] && [b][1..] == [];
    var next := if fates(k).FailsBefore? then pair else pair.With(a.kind, a.value);
    assert Left(fates, k + 1, [b], next) == if fates(k + 1).FailsBefore? then next else next.With(b.kind, b.value);
  }

  lemma LogoutWrites(before: Pair)
    ensures Writes(DoLogout, before) ==
      if before.token.Some? && before.key.Some? then [Write(AccessToken, None), Write(PrivateKey, None)]
      else if before.token.Some? then [Write(AccessToken, None)]
      else if before.key.Some? then [Write(PrivateKey, None)]
      else []
  {
  }

  class Keychain {
    var pair: Pair
    const runner: Runner

    constructor (pair: Pair, runner: Runner)
      ensures this.pair == pair && this.runner == runner
    {
      this.pair, this.runner := pair, runner;
    }

    /** The command that is run next. */
    function Next(): Fate
      reads runner
    {
      runner.fates(runner.run)
    }

    method Get(kind: Kind) returns (r: Reading)
      modifies runner
      ensures runner.Went() && runner.run == old(runner.run) + 1 && (runner.Quiet() <==> old(Next()).Works?)
      ensures r == if !old(Next()).Works? then Unreadable
                   else if pair.Item(kind).None? then NotFound else Value(pair.Item(kind).value)
    {
      var ok := runner.Attempt();
      if !ok {
        return Unreadable;
      }
      return if pair.Item(kind).None? then NotFound else Value(pair.Item(kind).value);
    }

    method Put(kind: Kind, secret: Secret) returns (ok: bool)
      modifies this`pair, runner
      ensures runner.Went() && runner.run == old(runner.run) + 1
      ensures pair == if old(Next()).FailsBefore? then old(pair) else old(pair).With(kind, Some(secret))
      ensures ok <==> old(Next()).Works?
    {
      var took: bool;
      took, ok := runner.Effect();
      if took {
        pair := pair.With(kind, Some(secret));
      }
    }

    method Delete(kind: Kind) returns (r: Removal)
      modifies this`pair, runner
      ensures runner.Went() && runner.run == old(runner.run) + 1
      ensures pair == if old(Next()).FailsBefore? then old(pair) else old(pair).With(kind, None)
      ensures r == if !old(Next()).Works? then RemovalFailed
                   else if old(pair).Item(kind).None? then Absent else Removed
    {
      var took, ok := runner.Effect();
      var absent := pair.Item(kind).None?;
      if took {
        pair := pair.With(kind, None);
      }
      return if !ok then RemovalFailed else if absent then Absent else Removed;
    }

    // ---------- shared steps ----------

    /** The item as it is, or nothing if it cannot be read. */
    method Capture(kind: Kind) returns (ok: bool, before: Option<Secret>)
      modifies runner
      ensures runner.Went() && runner.run == old(runner.run) + 1 && (ok <==> runner.Quiet())
      ensures (ok <==> old(Next()).Works?) && (ok ==> before == pair.Item(kind))
    {
      var r := Get(kind);
      return !r.Unreadable?, if r.Value? then Some(r.secret) else None;
    }

    /** Puts one item back. */
    method Restore(kind: Kind, before: Option<Secret>) returns (ok: bool)
      modifies this`pair, runner
      ensures runner.Went() && runner.run == old(runner.run) + 1
      ensures pair == if old(Next()).FailsBefore? then old(pair) else old(pair).With(kind, before)
      ensures ok <==> old(Next()).Works?
    {
      if before.Some? {
        ok := Put(kind, before.value);
      } else {
        var r := Delete(kind);
        ok := !r.RemovalFailed?;
      }
    }

    /** Puts both items back; the second is tried whatever became of the first. */
    method RollBack(before: Pair) returns (errors: set<Failure>)
      modifies this`pair, runner
      ensures runner.Went() && runner.run == old(runner.run) + 2
      ensures errors == {Transaction} || errors == {Transaction, RollbackIncomplete}
      ensures RollbackIncomplete in errors <==>
        !runner.fates(old(runner.run)).Works? || !runner.fates(old(runner.run) + 1).Works?
      ensures pair.token == if runner.fates(old(runner.run)).FailsBefore? then old(pair).token else before.token
      ensures pair.key == if runner.fates(old(runner.run) + 1).FailsBefore? then old(pair).key else before.key
    {
      var tokenOk := Restore(AccessToken, before.token);
      var keyOk := Restore(PrivateKey, before.key);
      return if tokenOk && keyOk then {Transaction} else {Transaction, RollbackIncomplete};
    }

    // ---------- Login ----------

    /** `provisioned` is what the service provisions for the token, if it does. */
    method Login(token: Secret, provisioned: Option<Provisioning>) returns (errors: set<Failure>, accountId: string)
      modifies this`pair, runner
      ensures runner.Went()
      ensures Transacted(runner.fates, old(runner.run), old(pair), DoLogin(token, provisioned), pair, errors)
      ensures pair != old(pair) || errors == {} ==> runner.LockedFirst()
      // The lock is reported if taking or releasing it failed, and nothing else as that.
      ensures runner.run > old(runner.run) && (CredentialLock in errors <==> !runner.fates(runner.run - 1).Works?)
      ensures accountId == if errors == {} && provisioned.Some? then provisioned.value.accountId else ""
    {
      var locked := runner.Acquire();
      if !locked {
        return {CredentialLock}, "";
      }
      errors := LoginLocked(token, provisioned);
      accountId := if errors == {} && provisioned.Some? then provisioned.value.accountId else "";
      var released := runner.Attempt();
      if !released {
        errors, accountId := errors + {CredentialLock}, "";
      }
    }

    method LoginLocked(token: Secret, provisioned: Option<Provisioning>) returns (errors: set<Failure>)
      requires runner.run > 0 && runner.fates(runner.run - 1).Works?
      modifies this`pair, runner
      ensures runner.Went() && CredentialLock !in errors
      ensures Transacted(runner.fates, old(runner.run) - 1, old(pair), DoLogin(token, provisioned), pair, errors)
    {
      if provisioned.None? {
        return {Provision};
      }
      var tokenRead, tokenBefore := Capture(AccessToken);
      if !tokenRead {
        return {Transaction};
      }
      var keyRead, keyBefore := Capture(PrivateKey);
      if !keyRead {
        return {Transaction};
      }
      errors := PutBoth(token, provisioned.value.key, Pair(tokenBefore, keyBefore));
    }

    method PutBoth(token: Secret, key: Secret, before: Pair) returns (errors: set<Failure>)
      requires pair == before
      modifies this`pair, runner
      ensures runner.Went() && CredentialLock !in errors
      ensures Written(runner.fates, old(runner.run), [Write(AccessToken, Some(token)), Write(PrivateKey, Some(key))],
                      before, pair, errors)
    {
      FirstOfTwo(runner.fates, runner.run);
      LeftOfTwo(runner.fates, runner.run, Write(AccessToken, Some(token)), Write(PrivateKey, Some(key)), before);
      hide FirstFailure, Left;
      var ok := Put(AccessToken, token);
      if ok {
        ok := Put(PrivateKey, key);
      }
      if !ok {
        errors := RollBack(before);
        return;
      }
      return {};
    }

    // ---------- Logout and status ----------

    method LogoutLocal() returns (errors: set<Failure>, removed: bool)
      modifies this`pair, runner
      ensures runner.Went()
      ensures Transacted(runner.fates, old(runner.run), old(pair), DoLogout, pair, errors)
      ensures pair != old(pair) || errors == {} ==> runner.LockedFirst()
      ensures runner.run > old(runner.run) && (CredentialLock in errors <==> !runner.fates(runner.run - 1).Works?)
      ensures removed <==> errors == {} && old(pair) != Pair(None, None)
    {
      removed := false;
      var locked := runner.Acquire();
      if !locked {
        return {CredentialLock}, false;
      }
      errors, removed := LogoutLocked();
      var released := runner.Attempt();
      if !released {
        errors, removed := errors + {CredentialLock}, false;
      }
    }

    method LogoutLocked() returns (errors: set<Failure>, removed: bool)
      requires runner.run > 0 && runner.fates(runner.run - 1).Works?
      modifies this`pair, runner
      ensures runner.Went() && CredentialLock !in errors
      ensures Transacted(runner.fates, old(runner.run) - 1, old(pair), DoLogout, pair, errors)
      ensures removed <==> errors == {} && old(pair) != Pair(None, None)
    {
      removed := false;
      var tokenRead, token := Capture(AccessToken);
      if !tokenRead {
        return {CredentialRead}, false;
      }
      var keyRead, key := Capture(PrivateKey);
      if !keyRead {
        return {CredentialRead}, false;
      }
      if token.None? && key.None? {
        return {}, false;
      }
      errors := RemoveBoth(Pair(token, key));
      removed := errors == {};
    }

    method RemoveBoth(before: Pair) returns (errors: set<Failure>)
      requires pair == before
      modifies this`pair, runner
      ensures runner.Went() && CredentialLock !in errors
      ensures Written(runner.fates, old(runner.run), Writes(DoLogout, before), before, pair, errors)
    {
      FirstOfTwo(runner.fates, runner.run);
      LeftOfTwo(runner.fates, runner.run, Write(AccessToken, None), Write(PrivateKey, None), before);
      LogoutWrites(before);
      hide FirstFailure, Left, Writes;
      var ok := true;
      if before.token.Some? {
        var r := Delete(AccessToken);
        ok := r.Removed?;
      }
      if ok && before.key.Some? {
        var r := Delete(PrivateKey);
        ok := r.Removed?;
      }
      if !ok {
        errors := RollBack(before);
        return;
      }
      return {};
    }

    method Inspect() returns (r: Option<Status>)
      modifies runner
      ensures runner.Went() && (r.Some? <==> runner.Quiet()) && (r.Some? ==> runner.LockedFirst())
      ensures r.Some? ==> (r.value.repairNeeded <==> !pair.Consistent())
      ensures r.Some? ==> (r.value.state == LoggedIn <==> pair.token.Some? && pair.key.Some?)
      ensures r.Some? ==> (r.value.state == LoggedOut <==> pair == Pair(None, None))
      ensures r.Some? ==> r.value.hasToken == pair.token.Some? && r.value.hasKey == pair.key.Some?
    {
      var locked := runner.Acquire();
      if !locked {
        return None;
      }
      var tokenRead, token := Capture(AccessToken);
      if !tokenRead {
        return None;
      }
      var keyRead, key := Capture(PrivateKey);
      var released := runner.Attempt();
      if !keyRead || !released {
        return None;
      }
      return Some(StatusOf(token.Some?, key.Some?));
    }
  }

  // ---------- what that means ----------

  /** Only a failed write and a failed restore after it leave a rollback incomplete; without both, a call leaves all it
      is to leave or nothing, and one that fails leaves nothing. */
  lemma AllOrNothing(fates: nat -> Fate, from: nat, before: Pair, op: Operation, after: Pair, errors: set<Failure>)
    requires Transacted(fates, from, before, op, after, errors)
    ensures RollbackIncomplete !in errors ==> after == before || Meant(op) == Some(after)
    ensures RollbackIncomplete !in errors && errors != {} && errors != {CredentialLock} ==> after == before
    ensures RollbackIncomplete in errors ==>
      exists w :: from + 3 <= w && !fates(w).Works? && (!fates(w + 1).Works? || !fates(w + 2).Works?)
    ensures errors == {} ==> Meant(op) == Some(after)
  {
    if Meant(op).Some? {
      AllMade(fates, from + 3, op, before);
    }
  }

  /** Writes that all work leave what the call means to. */
  lemma AllMade(fates: nat -> Fate, first: nat, op: Operation, before: Pair)
    requires Meant(op).Some?
    ensures FirstFailure(fates, first, |Writes(op, before)|).None? ==>
      Left(fates, first, Writes(op, before), before) == Meant(op).value
  {
    var writes := Writes(op, before);
    FirstOfTwo(fates, first);
    if op.DoLogin? {
      LeftOfTwo(fates, first, writes[0], writes[1], before);
    } else {
      LeftOfTwo(fates, first, Write(AccessToken, None), Write(PrivateKey, None), before);
      LogoutWrites(before);
    }
    hide FirstFailure, Left;
  }

  /** If no command after the first failed write fails, the pair is as it was and the rollback is complete. */
  lemma Compensated(fates: nat -> Fate, from: nat, before: Pair, op: Operation, after: Pair, errors: set<Failure>,
                    w: nat)
    requires Transacted(fates, from, before, op, after, errors) && Meant(op).Some?
    requires from + 3 <= w < from + 3 + |Writes(op, before)| && !fates(w).Works?
    requires forall k: nat :: from <= k <= w + 2 && k != w ==> fates(k).Works?
    ensures after == before && errors - {CredentialLock} == {Transaction}
  {
    assert FirstFailure(fates, from + 3, |Writes(op, before)|) == Some(w);
  }

  // ---------- whole runs ----------

  /** The pairs a run can pass through while no call reports an incomplete rollback. */
  predicate Explained(start: Pair, ops: seq<Operation>, pair: Pair) {
    pair == start || exists i :: 0 <= i < |ops| && Meant(ops[i]) == Some(pair)
  }

  /** None of the first `n` calls says its rollback is incomplete. */
  predicate Complete(errors: seq<set<Failure>>, n: nat)
    requires n <= |errors|
  {
    forall i :: 0 <= i < n ==> RollbackIncomplete !in errors[i]
  }

  /** Any run of Login and Logout, each with its own fates of its commands: as long as no call says its rollback is
      incomplete, the pair after each call is one that an earlier call meant to leave, so a consistent start stays
      consistent; and any one undisturbed call repairs whatever is left. */
  method EveryRun(start: Pair, ops: seq<Operation>, fates: seq<nat -> Fate>)
    returns (pairs: seq<Pair>, errors: seq<set<Failure>>)
    requires |fates| == |ops|
    ensures |pairs| == |ops| + 1 && |errors| == |ops| && pairs[0] == start
    ensures forall i :: 0 <= i < |ops| ==> Transacted(fates[i], 0, pairs[i], ops[i], pairs[i + 1], errors[i])
    ensures forall i :: 0 <= i <= |ops| && Complete(errors, i) ==> Explained(start, ops[..i], pairs[i])
    ensures forall i :: 0 <= i <= |ops| && Complete(errors, i) && start.Consistent() ==> pairs[i].Consistent()
    ensures forall i :: 0 <= i < |ops| && AllWork(fates[i]) && Meant(ops[i]).Some? ==>
      pairs[i + 1] == Meant(ops[i]).value && errors[i] == {}
  {
    hide Transacted, AllWork;
    pairs, errors := [start], [];
    for i := 0 to |ops|
      invariant |pairs| == i + 1 && |errors| == i && pairs[0] == start
      invariant forall k :: 0 <= k < i ==> Transacted(fates[k], 0, pairs[k], ops[k], pairs[k + 1], errors[k])
      invariant forall k :: 0 <= k < i && AllWork(fates[k]) && Meant(ops[k]).Some? ==>
        pairs[k + 1] == Meant(ops[k]).value && errors[k] == {}
    {
      var clock: nat -> int := *;
      var runner := new Runner(fates[i], clock);
      var store := new Keychain(pairs[i], runner);
      var failed: set<Failure>;
      match ops[i] {
        case DoLogin(t, p) =>
          var accountId: string;
          failed, accountId := store.Login(t, p);
        case DoLogout =>
          var removed: bool;
          failed, removed := store.LogoutLocal();
      }
      if AllWork(fates[i]) && Meant(ops[i]).Some? {
        Undisturbed(fates[i], pairs[i], ops[i], store.pair, failed, runner.run - 1);
      }
      pairs, errors := pairs + [store.pair], errors + [failed];
    }
    forall i | 0 <= i <= |ops| && Complete(errors, i) ensures Explained(start, ops[..i], pairs[i]) {
      RunExplained(start, ops, fates, pairs, errors, i);
    }
    forall i | 0 <= i <= |ops| && Complete(errors, i) && start.Consistent() ensures pairs[i].Consistent() {
      assert Explained(start, ops[..i], pairs[i]);
    }
  }

  lemma Undisturbed(fates: nat -> Fate, before: Pair, op: Operation, after: Pair, errors: set<Failure>, last: nat)
    requires Transacted(fates, 0, before, op, after, errors) && AllWork(fates) && Meant(op).Some?
    requires CredentialLock in errors <==> !fates(last).Works?
    ensures after == Meant(op).value && errors == {}
  {
    AllMade(fates, 3, op, before);
  }

  lemma {:induction false} RunExplained(start: Pair, ops: seq<Operation>, fates: seq<nat -> Fate>, pairs: seq<Pair>,
                                        errors: seq<set<Failure>>, n: nat)
    requires |fates| == |ops| == |errors| && |pairs| == |ops| + 1 && pairs[0] == start
    requires forall i :: 0 <= i < |ops| ==> Transacted(fates[i], 0, pairs[i], ops[i], pairs[i + 1], errors[i])
    requires n <= |ops| && Complete(errors, n)
    ensures Explained(start, ops[..n], pairs[n])
  {
    hide Transacted;
    if n > 0 {
      RunExplained(start, ops, fates, pairs, errors, n - 1);
      assert Transacted(fates[n - 1], 0, pairs[n - 1], ops[n - 1], pairs[n - 1 + 1], errors[n - 1]);
      AllOrNothing(fates[n - 1], 0, pairs[n - 1], ops[n - 1], pairs[n], errors[n - 1]);
      assert ops[..n][n - 1] == ops[n - 1] && ops[..n][..n - 1] == ops[..n - 1];
      if pairs[n] == pairs[n - 1] && pairs[n] != start {
        var i :| 0 <= i < n - 1 && Meant(ops[..n - 1][i]) == Some(pairs[n]);
        assert Meant(ops[..n][i]) == Some(pairs[n]);
      }
    }
  }
}
