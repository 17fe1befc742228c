/** The journal store as it works on files (internal/state/journal.go): a temporary file is written and synced,
    then linked or renamed into place, then the directory is synced.

    The file system keeps every version of the directory since it was last synced: after a crash any of them may
    come back, name by name. A file's bytes survive a crash once they are synced and not before. JSON is an
    abstract codec that can read back what it wrote. */
module JournalStore {
  import opened Net
  import opened Faults
  import opened ByteStrings
  import opened TunnelModel
  import opened TunnelProtocol

  const MAX_JOURNAL_BYTES := 0x10_0000

  /** `Temp` names never clash with a session's. */
  datatype Name = Session(id: string) | Temp(n: nat)
  type Directory = map<Name, nat>

  /** `versions` ends with the directory as processes see it; numbers are inodes, and `next` is the first number
      that neither an inode nor a temporary name has used. */
  datatype Files = Files(versions: seq<Directory>, content: map<nat, Bytes>, synced: set<nat>, next: nat) {
    predicate Valid() {
      && versions != [] && synced <= content.Keys && (forall i :: i in content ==> i < next)
      && forall name :: name in versions[|versions| - 1] && name.Temp? ==> name.n < next
    }

    function Dir(): Directory
      requires Valid()
    {
      versions[|versions| - 1]
    }
  }

  datatype Codec = Codec(encode: Journal -> Bytes, decode: Bytes -> Option<Journal>)

  /** What is written for a journal. */
  function Encoded(c: Codec, j: Journal): Bytes { c.encode(j) + [10] }

  ghost predicate Lawful(c: Codec) { forall j :: ValidJournal(j) ==> c.decode(Encoded(c, j)) == Some(j) }

  predicate Fits(c: Codec, j: Journal) { |c.encode(j)| + 1 <= MAX_JOURNAL_BYTES }

  // ---------- what a reader may find ----------

  function Find(dir: Directory, id: string): Option<nat> { if Session(id) in dir then Some(dir[Session(id)]) else None }

  /** The journal a directory leads to. */
  function ViewIn(c: Codec, fs: Files, dir: Directory, id: string): Option<Journal> {
    var i := Find(dir, id);
    if i.Some? && i.value in fs.content then c.decode(fs.content[i.value]) else None
  }

  function View(c: Codec, fs: Files, id: string): Option<Journal>
    requires fs.Valid()
  {
    ViewIn(c, fs, fs.Dir(), id)
  }

  /** A crash now may leave this behind for the session. */
  ghost predicate Surfaces(c: Codec, fs: Files, id: string, got: Option<Journal>) {
    exists k :: 0 <= k < |fs.versions| && ViewIn(c, fs, fs.versions[k], id) == got
  }

  /** Everything a crash may leave for the session. */
  ghost function May(c: Codec, fs: Files, id: string): set<Option<Journal>> {
    set k | 0 <= k < |fs.versions| :: ViewIn(c, fs, fs.versions[k], id)
  }

  /** A write that keeps to old or new does to these possibilities what the transaction expects of its store. */
  lemma MaySurface(c: Codec, fs: Files, fs': Files, id: string, new_: Option<Journal>, ok: bool)
    requires fs.Valid() && OldOrNew(c, fs, fs', id, new_)
    requires ok ==> forall got :: Surfaces(c, fs', id, got) <==> got == new_
    ensures SurfaceOutcome(May(c, fs, id), new_, May(c, fs', id), ok) && View(c, fs', id) in May(c, fs', id)
  {
    hide ViewIn, Clean;
    forall x ensures x in May(c, fs', id) ==> x in May(c, fs, id) || x == new_ {
      if x in May(c, fs', id) {
        assert Surfaces(c, fs', id, x);
      }
    }
    if ok {
      assert Surfaces(c, fs', id, new_);
      forall x | x in May(c, fs', id) ensures x == new_ {
        assert Surfaces(c, fs', id, x);
      }
      assert May(c, fs', id) == {new_};
    }
    ViewValid(c, fs, fs', id, new_);
    assert View(c, fs', id) == ViewIn(c, fs', fs'.versions[|fs'.versions| - 1], id);
  }

  lemma ViewValid(c: Codec, fs: Files, fs': Files, id: string, new_: Option<Journal>)
    requires fs.Valid() && OldOrNew(c, fs, fs', id, new_)
    ensures fs'.Valid()
  {
  }

  /** The inode safely holds a whole valid journal of the session. */
  ghost predicate Holds(c: Codec, fs: Files, i: nat, id: string) {
    i in fs.synced && i in fs.content &&
    exists j :: ValidJournal(j) && j.sessionId == id && Fits(c, j) && fs.content[i] == Encoded(c, j)
  }

  /** Whatever comes back after a crash is a whole valid journal. */
  ghost predicate Clean(c: Codec, fs: Files) {
    && fs.Valid()
    && forall k, id :: 0 <= k < |fs.versions| && Session(id) in fs.versions[k] ==>
         Holds(c, fs, fs.versions[k][Session(id)], id)
  }

  /** From `fs` to `fs'` nothing changed for any session but `id`, which has its old journal or the new one. */
  ghost predicate OldOrNew(c: Codec, fs: Files, fs': Files, id: string, new_: Option<Journal>)
    requires fs.Valid()
  {
    && Clean(c, fs')
    && (forall other, got :: Surfaces(c, fs', other, got) ==>
          Surfaces(c, fs, other, got) || (other == id && got == new_))
    && (forall other :: View(c, fs', other) == View(c, fs, other) || (other == id && View(c, fs', other) == new_))
  }

  // ---------- what the steps keep ----------

  lemma SameView(c: Codec, fs: Files, fs': Files, dir: Directory, dir': Directory, id: string)
    requires Find(dir, id) == Find(dir', id)
    requires Find(dir, id).Some? ==> Find(dir, id).value in fs.content && Find(dir, id).value in fs'.content
    requires Find(dir, id).Some? ==> fs.content[Find(dir, id).value] == fs'.content[Find(dir, id).value]
    ensures ViewIn(c, fs, dir, id) == ViewIn(c, fs', dir', id)
  {
  }

  /** No name of a session leads to the inode, in any version. */
  ghost predicate Private(fs: Files, i: nat) {
    forall k, id :: 0 <= k < |fs.versions| && Session(id) in fs.versions[k] ==> fs.versions[k][Session(id)] != i
  }

  /** The step touched only temporary names and one private inode. */
  ghost predicate Aside(fs: Files, fs': Files, i: nat) {
    && fs.Valid() && fs'.Valid() && Private(fs, i)
    && (fs'.versions == fs.versions || fs'.versions == fs.versions + [fs'.Dir()])
    && (forall id :: Find(fs'.Dir(), id) == Find(fs.Dir(), id))
    && (forall n :: n in fs.content && n != i ==> n in fs'.content && fs'.content[n] == fs.content[n])
    && fs.synced <= fs'.synced
  }

  /** Each old version reads the same after such a step. */
  lemma AsideVersions(c: Codec, fs: Files, fs': Files, i: nat, k: nat, id: string)
    requires Clean(c, fs) && Aside(fs, fs', i) && k < |fs.versions|
    ensures k < |fs'.versions| && fs'.versions[k] == fs.versions[k]
    ensures ViewIn(c, fs', fs'.versions[k], id) == ViewIn(c, fs, fs.versions[k], id)
  {
    if Session(id) in fs.versions[k] {
      assert Holds(c, fs, fs.versions[k][Session(id)], id);
    }
    SameView(c, fs, fs', fs.versions[k], fs'.versions[k], id);
  }

  lemma AsideStep(c: Codec, base: Files, fs: Files, fs': Files, i: nat, id: string, new_: Option<Journal>)
    requires base.Valid() && OldOrNew(c, base, fs, id, new_) && Aside(fs, fs', i)
    ensures OldOrNew(c, base, fs', id, new_) && Private(fs', i)
    ensures forall other :: View(c, fs', other) == View(c, fs, other)
    ensures forall got :: Surfaces(c, fs', id, got) ==> Surfaces(c, fs, id, got)
  {
    hide ViewIn, Lawful;
    var n := |fs.versions| - 1;
    forall k, other | 0 <= k < |fs'.versions| && Session(other) in fs'.versions[k]
      ensures Holds(c, fs', fs'.versions[k][Session(other)], other) && fs'.versions[k][Session(other)] != i
    {
      var m := if k <= n then k else n;
      assert Find(fs'.versions[k], other) == Find(fs.versions[m], other);
      assert Holds(c, fs, fs.versions[m][Session(other)], other);
    }
    forall other ensures View(c, fs', other) == View(c, fs, other) {
      AsideVersions(c, fs, fs', i, n, other);
      LastView(c, fs, fs', i, other);
    }
    forall other, got | Surfaces(c, fs', other, got) ensures Surfaces(c, fs, other, got) {
      var k :| 0 <= k < |fs'.versions| && ViewIn(c, fs', fs'.versions[k], other) == got;
      if k <= n {
        AsideVersions(c, fs, fs', i, k, other);
      } else {
        assert View(c, fs', other) == View(c, fs, other);
        assert ViewIn(c, fs, fs.versions[n], other) == got;
      }
    }
  }

  lemma LastView(c: Codec, fs: Files, fs': Files, i: nat, id: string)
    requires Clean(c, fs) && Aside(fs, fs', i)
    ensures View(c, fs', id) == View(c, fs, id)
  {
    var n := |fs.versions| - 1;
    if Session(id) in fs.versions[n] {
      assert Holds(c, fs, fs.versions[n][Session(id)], id);
    }
    assert Find(fs'.Dir(), id) == Find(fs.Dir(), id);
    SameView(c, fs, fs', fs.Dir(), fs'.Dir(), id);
  }

  /** Publishing the synced temporary file, or taking the session's name away, is one new version. */
  lemma PublishStep(c: Codec, base: Files, fs: Files, dir: Directory, id: string, new_: Option<Journal>)
    requires base.Valid() && OldOrNew(c, base, fs, id, new_)
    requires forall other :: other != id ==> Find(dir, other) == Find(fs.Dir(), other)
    requires Session(id) in dir ==> Holds(c, fs, dir[Session(id)], id)
    requires ViewIn(c, fs, dir, id) == new_
    requires forall name :: name in dir && name.Temp? ==> name in fs.Dir()
    ensures OldOrNew(c, base, fs.(versions := fs.versions + [dir]), id, new_)
    ensures View(c, fs.(versions := fs.versions + [dir]), id) == new_
  {
    hide Fits, Encoded, ValidJournal;
    var fs' := fs.(versions := fs.versions + [dir]);
    var n := |fs.versions| - 1;
    forall k, other | 0 <= k < |fs'.versions| && Session(other) in fs'.versions[k]
      ensures Holds(c, fs', fs'.versions[k][Session(other)], other)
    {
      assert k > n && other != id ==> Find(dir, other) == Find(fs.versions[n], other);
      assert k <= n || other != id ==> Holds(c, fs, fs'.versions[k][Session(other)], other);
    }
    forall other ensures other != id ==> ViewIn(c, fs', dir, other) == View(c, fs, other) {
      if other != id {
        assert Find(dir, other) == Find(fs.Dir(), other);
      }
    }
    forall other, got | Surfaces(c, fs', other, got)
      ensures Surfaces(c, fs, other, got) || (other == id && got == new_)
    {
      var k :| 0 <= k < |fs'.versions| && ViewIn(c, fs', fs'.versions[k], other) == got;
      assert k <= n ==> ViewIn(c, fs, fs.versions[k], other) == got;
      assert k > n && other != id ==> ViewIn(c, fs, fs.versions[n], other) == got;
    }
  }

  /** Syncing the directory forgets the old versions. */
  lemma SyncStep(c: Codec, base: Files, fs: Files, id: string, new_: Option<Journal>)
    requires base.Valid() && OldOrNew(c, base, fs, id, new_)
    ensures var fs' := fs.(versions := [fs.Dir()]);
      && OldOrNew(c, base, fs', id, new_) && View(c, fs', id) == View(c, fs, id)
      && forall got :: Surfaces(c, fs', id, got) <==> got == View(c, fs, id)
  {
    var fs' := fs.(versions := [fs.Dir()]);
    var n := |fs.versions| - 1;
    assert fs'.versions[0] == fs.versions[n];
    forall k, other | 0 <= k < |fs'.versions| && Session(other) in fs'.versions[k]
      ensures Holds(c, fs', fs'.versions[k][Session(other)], other)
    {
      assert Holds(c, fs, fs.versions[n][Session(other)], other);
    }
    forall other, got ensures Surfaces(c, fs', other, got) ==> Surfaces(c, fs, other, got) {
      if Surfaces(c, fs', other, got) {
        assert ViewIn(c, fs, fs.versions[n], other) == got;
      }
    }
    assert ViewIn(c, fs', fs'.versions[0], id) == View(c, fs, id);
  }

  lemma Unchanged(c: Codec, fs: Files, id: string, new_: Option<Journal>)
    requires Clean(c, fs)
    ensures OldOrNew(c, fs, fs, id, new_)
  {
  }

  /** A crash: each name comes back from some version since the last sync, unsynced bytes come back as anything. */
  ghost predicate Crashes(fs: Files, fs': Files) {
    && fs.Valid() && fs'.Valid() && |fs'.versions| == 1
    && (forall id :: exists k :: 0 <= k < |fs.versions| && Find(fs'.Dir(), id) == Find(fs.versions[k], id))
    && fs'.synced == fs.synced
    && forall i :: i in fs.synced ==> i in fs'.content && fs'.content[i] == fs.content[i]
  }

  /** After a crash anywhere, each session has a whole journal that could surface, and the store is clean again. */
  lemma CrashClean(c: Codec, fs: Files, fs': Files, id: string)
    requires Clean(c, fs) && Crashes(fs, fs')
    ensures Clean(c, fs') && Surfaces(c, fs, id, View(c, fs', id))
  {
    forall other | Session(other) in fs'.Dir() ensures Holds(c, fs', fs'.Dir()[Session(other)], other) {
      var k :| 0 <= k < |fs.versions| && Find(fs'.Dir(), other) == Find(fs.versions[k], other);
      assert Holds(c, fs, fs.versions[k][Session(other)], other);
    }
    var k :| 0 <= k < |fs.versions| && Find(fs'.Dir(), id) == Find(fs.versions[k], id);
    if Session(id) in fs.versions[k] {
      assert Holds(c, fs, fs.versions[k][Session(id)], id);
    }
    assert ViewIn(c, fs, fs.versions[k], id) == View(c, fs', id);
  }

  // ---------- the store ----------

  class Store {
    const codec: Codec
    const runner: Runner
    var fs: Files
    /** The files after every step so far. */
    var steps: seq<Files>

    constructor (codec: Codec, runner: Runner, fs: Files)
      requires Lawful(codec) && Clean(codec, fs)
      ensures this.codec == codec && this.runner == runner && this.fs == fs && steps == [fs] && Inv()
    {
      this.codec, this.runner, this.fs, this.steps := codec, runner, fs, [fs];
    }

    ghost predicate Inv()
      reads this
    {
      Lawful(codec) && Clean(codec, fs)
    }

    /** Every file system state since `from` reads as `base` did, or as the new journal for the one session. */
    ghost predicate Atomic(base: Files, from: nat, id: string, new_: Option<Journal>)
      reads this
    {
      base.Valid() && OldOrNew(codec, base, fs, id, new_)
      && forall k :: from <= k < |steps| ==> OldOrNew(codec, base, steps[k], id, new_)
    }

    /** Writes and syncs a temporary file. The file is left behind if that fails. */
    method WriteTemporary(data: Bytes, ghost base: Files, ghost from: nat, ghost id: string,
                          ghost new_: Option<Journal>)
      returns (ok: bool, i: nat)
      requires Inv() && Atomic(base, from, id, new_)
      modifies this`fs, this`steps, runner
      ensures runner.Went()
      ensures Inv() && Atomic(base, from, id, new_) && old(steps) <= steps
      ensures forall other :: View(codec, fs, other) == View(codec, old(fs), other)
      ensures ok ==> Private(fs, i) && i in fs.synced && i in fs.content && fs.content[i] == data
      // Once created the file stays, also if it was written in part or not synced.
      ensures ok || fs != old(fs) ==> fs.Dir() == old(fs).Dir()[Temp(i) := i] && Temp(i) !in old(fs).Dir()
      ensures !ok && fs != old(fs) ==> i in fs.content && fs.content[i] <= data
      ensures (ok <==> runner.Quiet()) && (ok ==> runner.run == old(runner.run) + 3)
      ensures !ok ==> runner.run <= old(runner.run) + 3
    {
      hide OldOrNew, Lawful, View, Holds;
      i := fs.next;
      ok := runner.Attempt();
      if !ok {
        return;
      }
      FreshPrivate(codec, fs);
      ghost var was := fs;
      fs := fs.(versions := fs.versions + [fs.Dir()[Temp(i) := i]], content := fs.content[i := []], next := i + 1);
      Step(was, i, base, from, id, new_);
      ok := Fill(i, data, base, from, id, new_);
    }

    /** Writes the bytes and syncs them. */
    method Fill(i: nat, data: Bytes, ghost base: Files, ghost from: nat, ghost id: string, ghost new_: Option<Journal>)
      returns (ok: bool)
      requires Inv() && Atomic(base, from, id, new_) && Private(fs, i) && i in fs.content && fs.content[i] == []
      modifies this`fs, this`steps, runner
      ensures runner.Went() && (ok <==> runner.Quiet()) && (ok ==> runner.run == old(runner.run) + 2)
      ensures !ok ==> runner.run <= old(runner.run) + 2
      ensures Inv() && Atomic(base, from, id, new_) && old(steps) <= steps
      ensures forall other :: View(codec, fs, other) == View(codec, old(fs), other)
      ensures fs.Dir() == old(fs).Dir() && i in fs.content
      ensures if ok then Private(fs, i) && i in fs.synced && fs.content[i] == data else fs.content[i] <= data
    {
      hide OldOrNew, Lawful, View, Holds;
      ok := runner.Attempt();
      var written := |data|;
      if !ok {
        written :| 0 <= written <= |data|;
      }
      ghost var was := fs;
      fs := fs.(content := fs.content[i := data[..written]]);
      Step(was, i, base, from, id, new_);
      if !ok {
        return;
      }
      assert data[..written] == data;
      ok := runner.Attempt();
      if ok {
        was := fs;
        fs := fs.(synced := fs.synced + {i});
        Step(was, i, base, from, id, new_);
      }
    }

    /** Records a step that no session can see. */
    method Step(ghost was: Files, ghost i: nat, ghost base: Files, ghost from: nat, ghost id: string,
                ghost new_: Option<Journal>)
      requires Lawful(codec) && Aside(was, fs, i) && base.Valid() && OldOrNew(codec, base, was, id, new_)
      requires forall k :: from <= k < |steps| ==> OldOrNew(codec, base, steps[k], id, new_)
      modifies this`steps
      ensures Inv() && Atomic(base, from, id, new_) && steps == old(steps) + [fs] && Private(fs, i)
      ensures forall other :: View(codec, fs, other) == View(codec, was, other)
      ensures forall got :: Surfaces(codec, fs, id, got) ==> Surfaces(codec, was, id, got)
    {
      AsideStep(codec, base, was, fs, i, id, new_);
      hide Aside, View, Lawful;
      steps := steps + [fs];
    }

    /** Makes a directory the current one. */
    method Commit(dir: Directory, ghost base: Files, ghost from: nat, ghost id: string, ghost new_: Option<Journal>)
      requires Inv() && Atomic(base, from, id, new_)
      requires forall other :: other != id ==> Find(dir, other) == Find(fs.Dir(), other)
      requires Session(id) in dir ==> Holds(codec, fs, dir[Session(id)], id)
      requires ViewIn(codec, fs, dir, id) == new_
      requires forall name :: name in dir && name.Temp? ==> name in fs.Dir()
      modifies this`fs, this`steps
      ensures Inv() && Atomic(base, from, id, new_) && old(steps) <= steps && View(codec, fs, id) == new_
      ensures fs.Dir() == dir && fs.content == old(fs).content
    {
      PublishStep(codec, base, fs, dir, id, new_);
      hide View, Lawful, OldOrNew, ViewIn;
      fs := fs.(versions := fs.versions + [dir]);
      steps := steps + [fs];
    }

    /** `syncDirectory`: what was done is now durable, unless it fails. */
    method SyncDirectory(ghost base: Files, ghost from: nat, ghost id: string, ghost new_: Option<Journal>)
      returns (ok: bool)
      requires Inv() && Atomic(base, from, id, new_)
      modifies this`fs, this`steps, runner
      ensures runner.Went()
      ensures Inv() && Atomic(base, from, id, new_) && old(steps) <= steps
      ensures View(codec, fs, id) == View(codec, old(fs), id)
      ensures ok ==> forall got :: Surfaces(codec, fs, id, got) <==> got == View(codec, fs, id)
      ensures fs.Dir() == old(fs).Dir() && fs.content == old(fs).content
      ensures (ok <==> runner.Quiet()) && (ok <==> runner.Did(old(runner.run))) && runner.run == old(runner.run) + 1
    {
      ok := runner.Attempt();
      if ok {
        SyncStep(codec, base, fs, id, new_);
        hide View, Lawful, OldOrNew, ViewIn, Surfaces;
        fs := fs.(versions := [fs.Dir()]);
        steps := steps + [fs];
      }
    }

    /** Makes the directory that names the new journal's inode the current one, and syncs it. */
    method Install(dir: Directory, i: nat, j: Journal, ghost base: Files, ghost from: nat) returns (ok: bool)
      requires Inv() && Atomic(base, from, j.sessionId, Some(j)) && ValidJournal(j) && Fits(codec, j)
      requires i in fs.synced && i in fs.content && fs.content[i] == Encoded(codec, j)
      requires Find(dir, j.sessionId) == Some(i)
      requires forall other :: other != j.sessionId ==> Find(dir, other) == Find(fs.Dir(), other)
      requires forall name :: name in dir && name.Temp? ==> name in fs.Dir()
      modifies this`fs, this`steps, runner
      ensures runner.Went() && runner.run == old(runner.run) + 1
      ensures Inv() && Atomic(base, from, j.sessionId, Some(j)) && old(steps) <= steps && fs.Dir() == dir
      ensures View(codec, fs, j.sessionId) == Some(j)
      ensures (ok <==> runner.Quiet()) && (ok <==> runner.Did(old(runner.run)))
      ensures ok ==> forall got :: Surfaces(codec, fs, j.sessionId, got) <==> got == Some(j)
    {
      hide View, ViewIn, Lawful, OldOrNew, Surfaces, Holds, ValidJournal, Fits, Encoded;
      HoldsWhole(codec, fs, i, j);
      Commit(dir, base, from, j.sessionId, Some(j));
      ok := SyncDirectory(base, from, j.sessionId, Some(j));
    }

    method Create(j: Journal) returns (ok: bool)
      requires Inv()
      modifies this`fs, this`steps, runner
      ensures runner.Went()
      ensures Inv() && old(steps) <= steps
      // At every step in between, a crash leaves the old state or the whole new journal.
      ensures Atomic(old(fs), |old(steps)|, j.sessionId, Some(j))
      // Only a journal that passes the limits of Load is ever written, and never over another one. The link puts it in
      // place for good; a sync that fails after it takes nothing back.
      ensures View(codec, fs, j.sessionId) ==
        if View(codec, old(fs), j.sessionId).None? && ValidJournal(j) && Fits(codec, j)
           && runner.Did(old(runner.run) + 4)
        then Some(j) else View(codec, old(fs), j.sessionId)
      ensures ok <==> View(codec, old(fs), j.sessionId).None? && ValidJournal(j) && Fits(codec, j)
                      && runner.Did(old(runner.run) + 4) && runner.Did(old(runner.run) + 5)
      ensures Fits(codec, j) ==>
        CreateOutcome(!runner.Quiet(), View(codec, old(fs), j.sessionId), j, View(codec, fs, j.sessionId), ok)
      ensures ok ==> forall got :: Surfaces(codec, fs, j.sessionId, got) <==> got == Some(j)
      // No temporary file stays, unless a command failed.
      ensures runner.Quiet() ==> forall n :: Temp(n) in fs.Dir() <==> Temp(n) in old(fs).Dir()
      // What a crash may bring back is what the transaction allows for.
      ensures SurfaceOutcome(May(codec, old(fs), j.sessionId), Some(j), May(codec, fs, j.sessionId), ok)
    {
      hide View, ViewIn, Lawful, OldOrNew, Surfaces, Holds, ValidJournal, Fits, Private, Encoded, May;
      ghost var base, from := fs, |steps|;
      var id := j.sessionId;
      Unchanged(codec, fs, id, Some(j));
      if ValidJournal(j) {
        SessionOfValid(j);
      }
      MaySurface(codec, fs, fs, id, Some(j), false);
      ok := runner.Attempt();
      if !ok || !ValidSessionID(id) || !ValidJournal(j) || !Fits(codec, j) {
        return false;
      }
      var i: nat;
      ok, i := WriteTemporary(Encoded(codec, j), base, from, id, Some(j));
      if !ok {
        MaySurface(codec, base, fs, id, Some(j), false);
        return;
      }
      ok := LinkTemporary(i, j, base, from);
      MaySurface(codec, base, fs, id, Some(j), ok);
    }

    /** Gives the temporary file the session's name as well, if nothing has it. */
    method LinkTemporary(i: nat, j: Journal, ghost base: Files, ghost from: nat) returns (ok: bool)
      requires Inv() && Atomic(base, from, j.sessionId, Some(j)) && ValidJournal(j) && Fits(codec, j)
      requires i in fs.synced && i in fs.content && fs.content[i] == Encoded(codec, j)
      modifies this`fs, this`steps, runner
      ensures runner.Went()
      ensures Inv() && Atomic(base, from, j.sessionId, Some(j)) && old(steps) <= steps
      ensures View(codec, fs, j.sessionId) == if View(codec, old(fs), j.sessionId).None? && runner.Did(old(runner.run))
                                              then Some(j) else View(codec, old(fs), j.sessionId)
      ensures ok <==> View(codec, old(fs), j.sessionId).None?
                      && runner.Did(old(runner.run)) && runner.Did(old(runner.run) + 1)
      ensures runner.Quiet() && View(codec, old(fs), j.sessionId).None? ==> ok
      ensures ok ==> forall got :: Surfaces(codec, fs, j.sessionId, got) <==> got == Some(j)
      ensures runner.Quiet() ==> forall n :: Temp(n) in fs.Dir() <==> Temp(n) in old(fs).Dir() && n != i
    {
      hide View, ViewIn, Lawful, OldOrNew, Surfaces, Holds, ValidJournal, Fits, Encoded;
      var id := j.sessionId;
      ViewPresent(codec, fs, id);
      ok := runner.Attempt();
      if ok && Session(id) !in fs.Dir() {
        ok := Install(fs.Dir()[Session(id) := i], i, j, base, from);
      } else {
        ok := false;
      }
      RemoveTemporary(i, base, from, id, Some(j));
      NowSurfaces(codec, fs, id);
    }

    /** Gives the temporary file the session's name instead. */
    method RenameTemporary(i: nat, j: Journal, ghost base: Files, ghost from: nat) returns (ok: bool)
      requires Inv() && Atomic(base, from, j.sessionId, Some(j)) && ValidJournal(j) && Fits(codec, j)
      requires i in fs.synced && i in fs.content && fs.content[i] == Encoded(codec, j)
      modifies this`fs, this`steps, runner
      ensures runner.Went()
      ensures Inv() && Atomic(base, from, j.sessionId, Some(j)) && old(steps) <= steps
      ensures View(codec, fs, j.sessionId) ==
        if runner.Did(old(runner.run)) then Some(j) else View(codec, old(fs), j.sessionId)
      ensures ok <==> runner.Did(old(runner.run)) && runner.Did(old(runner.run) + 1)
      ensures runner.Quiet() ==> ok
      ensures ok ==> forall got :: Surfaces(codec, fs, j.sessionId, got) <==> got == Some(j)
      ensures runner.Quiet() ==> forall n :: Temp(n) in fs.Dir() <==> Temp(n) in old(fs).Dir() && n != i
    {
      hide View, ViewIn, Lawful, OldOrNew, Surfaces, Holds, ValidJournal, Fits, Encoded;
      ok := runner.Attempt();
      if ok {
        ok := Install((fs.Dir() - {Temp(i)})[Session(j.sessionId) := i], i, j, base, from);
      }
      RemoveTemporary(i, base, from, j.sessionId, Some(j));
      NowSurfaces(codec, fs, j.sessionId);
    }

    method Update(j: Journal) returns (ok: bool)
      requires Inv()
      modifies this`fs, this`steps, runner
      ensures runner.Went()
      ensures Inv() && old(steps) <= steps
      ensures Atomic(old(fs), |old(steps)|, j.sessionId, Some(j))
      // The rename replaces it for good; a sync that fails after it takes nothing back.
      ensures View(codec, fs, j.sessionId) ==
        if View(codec, old(fs), j.sessionId).Some? && ValidJournal(j) && Fits(codec, j)
           && runner.Did(old(runner.run) + 4)
        then Some(j) else View(codec, old(fs), j.sessionId)
      ensures ok <==> View(codec, old(fs), j.sessionId).Some? && ValidJournal(j) && Fits(codec, j)
                      && runner.Did(old(runner.run) + 4) && runner.Did(old(runner.run) + 5)
      ensures Fits(codec, j) ==>
        UpdateOutcome(!runner.Quiet(), View(codec, old(fs), j.sessionId), j, View(codec, fs, j.sessionId), ok)
      ensures ok ==> forall got :: Surfaces(codec, fs, j.sessionId, got) <==> got == Some(j)
      // No temporary file stays, unless a command failed.
      ensures runner.Quiet() ==> forall n :: Temp(n) in fs.Dir() <==> Temp(n) in old(fs).Dir()
      // What a crash may bring back is what the transaction allows for.
      ensures SurfaceOutcome(May(codec, old(fs), j.sessionId), Some(j), May(codec, fs, j.sessionId), ok)
    {
      hide View, ViewIn, Lawful, OldOrNew, Surfaces, Holds, ValidJournal, Fits, Private, Encoded, May;
      ghost var base, from := fs, |steps|;
      var id := j.sessionId;
      Unchanged(codec, fs, id, Some(j));
      ViewPresent(codec, fs, id);
      if ValidJournal(j) {
        SessionOfValid(j);
      }
      MaySurface(codec, fs, fs, id, Some(j), false);
      ok := runner.Attempt();
      if !ok || !ValidSessionID(id) || Session(id) !in fs.Dir() || !ValidJournal(j) || !Fits(codec, j) {
        return false;
      }
      var i: nat;
      ok, i := WriteTemporary(Encoded(codec, j), base, from, id, Some(j));
      if !ok {
        MaySurface(codec, base, fs, id, Some(j), false);
        return;
      }
      ok := RenameTemporary(i, j, base, from);
      MaySurface(codec, base, fs, id, Some(j), ok);
    }

    method Delete(id: string) returns (ok: bool)
      requires Inv()
      modifies this`fs, this`steps, runner
      ensures runner.Went()
      ensures Inv() && old(steps) <= steps && Atomic(old(fs), |old(steps)|, id, None)
      ensures View(codec, fs, id) ==
        if ValidSessionID(id) && runner.Did(old(runner.run)) then None else View(codec, old(fs), id)
      ensures ok <==> View(codec, old(fs), id).Some? && ValidSessionID(id)
                      && runner.Did(old(runner.run)) && runner.Did(old(runner.run) + 1)
      ensures ValidSessionID(id) ==> DeleteOutcome(!runner.Quiet(), View(codec, old(fs), id), View(codec, fs, id), ok)
      ensures ok ==> forall got :: Surfaces(codec, fs, id, got) <==> got == None
      ensures SurfaceOutcome(May(codec, old(fs), id), None, May(codec, fs, id), ok)
    {
      hide View, ViewIn, Lawful, OldOrNew, Surfaces, Holds, May;
      ghost var base, from := fs, |steps|;
      Unchanged(codec, fs, id, None);
      NoneThere(codec, fs, fs.Dir() - {Session(id)}, id);
      ViewPresent(codec, fs, id);
      MaySurface(codec, fs, fs, id, None, false);
      ok := runner.Attempt();
      if !ok || !ValidSessionID(id) || Session(id) !in fs.Dir() {
        return false;
      }
      Commit(fs.Dir() - {Session(id)}, base, from, id, None);
      ok := SyncDirectory(base, from, id, None);
      MaySurface(codec, base, fs, id, None, ok);
    }

    method Load(id: string) returns (r: Loading)
      requires Inv()
      modifies runner
      ensures runner.Went()
      ensures r.NotFound? ==> View(codec, fs, id).None?
      ensures r.Loaded? ==>
        View(codec, fs, id) == Some(r.journal) && ValidJournal(r.journal) && r.journal.sessionId == id
      // Nothing the store ever wrote, and no crash, makes Load refuse what it finds.
      ensures runner.Quiet() && ValidSessionID(id) ==> !r.LoadFailed?
    {
      hide Holds, ValidJournal, Lawful;
      ViewPresent(codec, fs, id);
      var ok := runner.Attempt();
      if !ok || !ValidSessionID(id) {
        return LoadFailed;
      }
      if Session(id) !in fs.Dir() {
        return NotFound;
      }
      var data := fs.content[fs.Dir()[Session(id)]];
      if |data| > MAX_JOURNAL_BYTES {
        return LoadFailed;
      }
      var decoded := codec.decode(data);
      if decoded.None? || !ValidJournal(decoded.value) {
        return LoadFailed;
      }
      return Loaded(decoded.value);
    }

    /** The deferred removal of the temporary name; its failure goes unnoticed. */
    method RemoveTemporary(n: nat, ghost base: Files, ghost from: nat, ghost id: string, ghost new_: Option<Journal>)
      requires Inv() && Atomic(base, from, id, new_)
      modifies this`fs, this`steps, runner
      ensures runner.Went()
      ensures Inv() && Atomic(base, from, id, new_) && old(steps) <= steps
      ensures View(codec, fs, id) == View(codec, old(fs), id)
      ensures forall got :: Surfaces(codec, fs, id, got) ==> Surfaces(codec, old(fs), id, got)
      ensures fs.Dir() == if runner.Quiet() then old(fs).Dir() - {Temp(n)} else old(fs).Dir()
    {
      var ok := runner.Attempt();
      if ok {
        ghost var was := fs;
        FreshPrivate(codec, fs);
        fs := fs.(versions := fs.versions + [fs.Dir() - {Temp(n)}]);
        Step(was, was.next, base, from, id, new_);
      }
    }
  }

  lemma NoneThere(c: Codec, fs: Files, dir: Directory, id: string)
    requires Session(id) !in dir
    ensures ViewIn(c, fs, dir, id).None?
  {
  }

  lemma NowSurfaces(c: Codec, fs: Files, id: string)
    requires fs.Valid()
    ensures Surfaces(c, fs, id, View(c, fs, id))
  {
  }

  lemma SessionOfValid(j: Journal)
    requires ValidJournal(j)
    ensures ValidSessionID(j.sessionId)
  {
  }

  /** In a clean store a name always leads to a journal. */
  lemma ViewPresent(c: Codec, fs: Files, id: string)
    requires Clean(c, fs) && Lawful(c)
    ensures View(c, fs, id).Some? <==> Session(id) in fs.Dir()
    ensures View(c, fs, id).Some? ==> Stored(c, fs, id)
  {
    hide ValidJournal;
    var n := |fs.versions| - 1;
    if Session(id) in fs.versions[n] {
      assert Holds(c, fs, fs.versions[n][Session(id)], id);
    }
  }

  /** What Load reads for the session is a whole valid journal of that session. */
  ghost predicate Stored(c: Codec, fs: Files, id: string)
    requires fs.Valid()
  {
    var j := View(c, fs, id);
    && j.Some? && ValidJournal(j.value) && j.value.sessionId == id && Fits(c, j.value)
    && Session(id) in fs.Dir() && fs.Dir()[Session(id)] in fs.content
    && fs.content[fs.Dir()[Session(id)]] == Encoded(c, j.value)
  }

  lemma FreshPrivate(c: Codec, fs: Files)
    requires Clean(c, fs)
    ensures Private(fs, fs.next)
  {
    forall k, id | 0 <= k < |fs.versions| && Session(id) in fs.versions[k]
      ensures fs.versions[k][Session(id)] != fs.next
    {
      assert Holds(c, fs, fs.versions[k][Session(id)], id);
    }
  }

  lemma HoldsWhole(c: Codec, fs: Files, i: nat, j: Journal)
    requires fs.Valid() && i in fs.synced && i in fs.content && fs.content[i] == Encoded(c, j)
    requires ValidJournal(j) && Fits(c, j) && Lawful(c)
    ensures Holds(c, fs, i, j.sessionId)
    ensures forall dir: Directory :: Find(dir, j.sessionId) == Some(i) ==> ViewIn(c, fs, dir, j.sessionId) == Some(j)
  {
  }
}
