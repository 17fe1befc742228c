/** Anything that may go wrong. */
module Faults {

  /** A command works, or it fails, and then it may have taken effect or not. */
  datatype Fate = Works | FailsBefore | FailsAfter

  ghost predicate AllWork(fates: nat -> Fate) { forall k :: fates(k).Works? }

  /** Runs commands one after the other. Nothing is known of their fates or of the clock, so what is proved holds of
      every way in which commands may fail and of every clock. */
  class Runner {
    const fates: nat -> Fate
    /** What the clock reads before each of them. */
    const clock: nat -> int
    /** How many commands were run, and how many of them failed. */
    var run: nat
    var failed: nat
    /** Which of them took a lock. */
    var locks: seq<nat>

    constructor (fates: nat -> Fate, clock: nat -> int)
      ensures this.fates == fates && this.clock == clock && run == 0 && failed == 0 && locks == []
    {
      this.fates, this.clock, run, failed, locks := fates, clock, 0, 0, [];
    }

    /** What the clock reads now. */
    function Time(): int
      reads this
    {
      clock(run)
    }

    /** The command was run and worked. */
    predicate Did(k: nat)
      reads this
    {
      k < run && fates(k).Works?
    }

    /** No command has failed since. */
    twostate predicate Quiet()
      reads this
    {
      failed == old(failed)
    }

    /** Commands were run. */
    twostate predicate Went()
      reads this
    {
      && old(run) <= run && old(failed) <= failed && old(locks) <= locks
      && (AllWork(fates) ==> failed == old(failed))
    }

    /** The first command since took a lock. */
    twostate predicate LockedFirst()
      reads this
    {
      old(locks) + [old(run)] <= locks
    }

    method Acquire() returns (ok: bool)
      modifies this
      ensures Went() && run == old(run) + 1 && failed == old(failed) + if ok then 0 else 1
      ensures (ok <==> fates(old(run)).Works?) && (ok ==> LockedFirst())
    {
      ok := fates(run).Works?;
      if ok {
        locks := locks + [run];
      }
      run, failed := run + 1, failed + if ok then 0 else 1;
    }

    /** A command that changes nothing, or the part of one that can fail without an effect. */
    method Attempt() returns (ok: bool)
      modifies this
      ensures Went() && run == old(run) + 1 && failed == old(failed) + if ok then 0 else 1
      ensures (ok <==> fates(old(run)).Works?) && locks == old(locks)
    {
      ok := fates(run).Works?;
      run, failed := run + 1, failed + if ok then 0 else 1;
    }

    /** A command that changes something: whether it took effect, and what it reported. */
    method Effect() returns (took: bool, ok: bool)
      modifies this
      ensures Went() && run == old(run) + 1 && failed == old(failed) + if ok then 0 else 1
      ensures (ok <==> fates(old(run)).Works?) && (took <==> !fates(old(run)).FailsBefore?)
    {
      took, ok := !fates(run).FailsBefore?, fates(run).Works?;
      run, failed := run + 1, failed + if ok then 0 else 1;
    }
  }
}
