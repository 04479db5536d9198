/** Locks are released by their owner, once each. */
module Locks {
  import opened Wrappers
  import opened Protocol
  import opened Ownership

  // The step calls lock or a successful trylock on the table's mutex.
  predicate LocksTable(s: State, step: Step, t: TableId)
    requires Enabled(s, step)
  {
    || (step.TryTable? && s.conns[step.c].phase.t == t && t !in s.conns[step.c].locked && s.tables[t].owner.None?)
    || (step.TakeTable? && s.conns[step.c].phase.t == t)
  }

  // The step calls unlock on the table's mutex.
  predicate UnlocksTable(s: State, step: Step, t: TableId)
    requires Enabled(s, step)
  {
    || (step.DropTable? && s.conns[step.c].phase.t == t)
    || ((step.CommitUnlock? || step.AbortUnlock?) && s.conns[step.c].phase.at == Some(t))
  }

  // No thread unlocks a mutex it does not own, or locks one that is taken.
  lemma OnlyOwnersUnlock(s: State, step: Step, t: TableId)
    requires Inv(s) && Enabled(s, step)
    ensures UnlocksTable(s, step, t) ==> t in s.tables && s.tables[t].owner == Some(step.c)
    ensures LocksTable(s, step, t) ==> t in s.tables && s.tables[t].owner.None?
    ensures step.DropRegistry? ==> s.registryOwner == Some(step.c)
    ensures step.TakeRegistry? ==> s.registryOwner.None?
  {
    if !step.Connect? {
      assert ConnInv(s, step.c);
      assert UnlocksTable(s, step, t) ==> t in Held(s.conns[step.c]);
    }
  }

  // No data race: a thread reads or writes a table's maps, and the registry, with the mutex in hand.
  lemma AccessesAreLocked(s: State, step: Step)
    requires Inv(s) && Enabled(s, step)
    ensures step.Access? || step.AutoAccess? || step.AutoFlush?
            ==> s.tables[s.conns[step.c].phase.t].owner == Some(step.c)
    ensures step.CommitOne? || step.AbortOne? ==> s.tables[step.t].owner == Some(step.c)
    ensures step.UseRegistry? ==> s.registryOwner == Some(step.c)
  {
    if !step.Connect? {
      assert ConnInv(s, step.c);
      if step.Access? || step.AutoAccess? || step.AutoFlush? {
        assert s.conns[step.c].phase.t in Held(s.conns[step.c]);
      } else if step.CommitOne? || step.AbortOne? {
        assert step.t in Held(s.conns[step.c]);
      }
    }
  }

  // The steps that change a table's contents.
  lemma ContentsChange(s: State, step: Step, t: TableId)
    requires Enabled(s, step) && t in s.tables
    requires var s' := Apply(s, step);
             s'.tables[t].committed != s.tables[t].committed || s'.tables[t].pending != s.tables[t].pending
    ensures step.Access? || step.AutoAccess? || step.AutoFlush? ==> s.conns[step.c].phase.t == t
    ensures step.CommitOne? || step.AbortOne? ==> step.t == t
    ensures step.Access? || step.AutoAccess? || step.AutoFlush? || step.CommitOne? || step.AbortOne?
  {
    hide Receive;
  }

  // A table's contents change only under its owner's hands.
  lemma OnlyOwnersWrite(s: State, step: Step, t: TableId)
    requires Inv(s) && Enabled(s, step) && t in s.tables
    requires var s' := Apply(s, step);
             s'.tables[t].committed != s.tables[t].committed || s'.tables[t].pending != s.tables[t].pending
    ensures s.tables[t].owner == Some(step.c)
  {
    ContentsChange(s, step, t);
    hide Apply, Inv;
    AccessesAreLocked(s, step);
  }

  function LockCalls(s: State, steps: seq<Step>, t: TableId): nat
    requires Run(s, steps)
    decreases |steps|
  {
    if steps == [] then 0
    else (if LocksTable(s, steps[0], t) then 1 else 0) + LockCalls(Apply(s, steps[0]), steps[1..], t)
  }

  function UnlockCalls(s: State, steps: seq<Step>, t: TableId): nat
    requires Run(s, steps)
    decreases |steps|
  {
    if steps == [] then 0
    else (if UnlocksTable(s, steps[0], t) then 1 else 0) + UnlockCalls(Apply(s, steps[0]), steps[1..], t)
  }

  function RegistryLockCalls(s: State, steps: seq<Step>): nat
    requires Run(s, steps)
    decreases |steps|
  {
    if steps == [] then 0
    else (if steps[0].TakeRegistry? then 1 else 0) + RegistryLockCalls(Apply(s, steps[0]), steps[1..])
  }

  function RegistryUnlockCalls(s: State, steps: seq<Step>): nat
    requires Run(s, steps)
    decreases |steps|
  {
    if steps == [] then 0
    else (if steps[0].DropRegistry? then 1 else 0) + RegistryUnlockCalls(Apply(s, steps[0]), steps[1..])
  }

  function RegistryHeldCount(s: State): nat {
    if s.registryOwner.Some? then 1 else 0
  }

  // The same for the registry's mutex.
  lemma {:induction false} EachRegistryLockReleasedOnce(s: State, steps: seq<Step>)
    requires Inv(s) && Run(s, steps)
    ensures RegistryHeldCount(s) + RegistryLockCalls(s, steps)
         == RegistryUnlockCalls(s, steps) + RegistryHeldCount(After(s, steps))
    decreases |steps|
  {
    if steps != [] {
      OneRegistryStepBalance(s, steps[0]);
      StepKeepsInv(s, steps[0]);
      EachRegistryLockReleasedOnce(Apply(s, steps[0]), steps[1..]);
    }
  }

  lemma OneRegistryStepBalance(s: State, step: Step)
    requires Inv(s) && Enabled(s, step)
    ensures RegistryHeldCount(s) + (if step.TakeRegistry? then 1 else 0)
         == (if step.DropRegistry? then 1 else 0) + RegistryHeldCount(Apply(s, step))
  {
    OnlyOwnersUnlock(s, step, 0);
  }

  function HeldCount(s: State, t: TableId): nat {
    if t in s.tables && s.tables[t].owner.Some? then 1 else 0
  }

  // Over any run, a table's mutex is unlocked once for each time it was locked, but for the one
  // acquisition that is still held: every acquisition is released exactly once.
  lemma {:induction false} EachLockReleasedOnce(s: State, steps: seq<Step>, t: TableId)
    requires Inv(s) && Run(s, steps)
    ensures HeldCount(s, t) + LockCalls(s, steps, t) == UnlockCalls(s, steps, t) + HeldCount(After(s, steps), t)
    decreases |steps|
  {
    if steps != [] {
      OneStepBalance(s, steps[0], t);
      StepKeepsInv(s, steps[0]);
      EachLockReleasedOnce(Apply(s, steps[0]), steps[1..], t);
    }
  }

  lemma OneStepBalance(s: State, step: Step, t: TableId)
    requires Inv(s) && Enabled(s, step)
    ensures HeldCount(s, t) + (if LocksTable(s, step, t) then 1 else 0)
         == (if UnlocksTable(s, step, t) then 1 else 0) + HeldCount(Apply(s, step), t)
  {
    OnlyOwnersUnlock(s, step, t);
  }
}
