/** No deadlock, and every request ends: who waits for whom, and how much work is left. */
module Progress {
  import opened Wrappers
  import opened Tables
  import opened Protocol
  import opened Ownership

  // c is blocked in pthread_mutex_lock on a mutex that d holds.
  predicate WaitsFor(s: State, c: Conn, d: Conn) {
    c in s.conns
    && var phase := s.conns[c].phase;
    || (phase.WantRegistry? && s.registryOwner == Some(d))
    || (phase.WantTable? && phase.t in s.tables && s.tables[phase.t].owner == Some(d))
  }

  ghost predicate Blocked(s: State, c: Conn) {
    exists d :: WaitsFor(s, c, d)
  }

  // Whoever is waited for holds the lock in question.
  lemma WaitedForHolds(s: State, c: Conn, d: Conn)
    requires Inv(s) && WaitsFor(s, c, d)
    ensures d in s.conns
    ensures s.conns[c].phase.WantRegistry? ==> HoldsRegistry(s.conns[d])
    ensures s.conns[c].phase.WantTable? ==> s.conns[c].phase.t in Held(s.conns[d])
  {
    if s.conns[c].phase.WantTable? {
      assert TableInv(s, s.conns[c].phase.t);
    } else {
      assert ConnInv(s, d);
    }
  }

  // A connection blocked on a table's Guard holds nothing and is waited for by nobody; one that
  // holds the registry is not blocked; one that is waited for never waits for a table.
  lemma WaitFacts(s: State, c: Conn, d: Conn)
    requires Inv(s) && WaitsFor(s, c, d)
    ensures d in s.conns && d != c
    ensures s.conns[c].phase.WantTable? ==> Held(s.conns[c]) == {} && !HoldsRegistry(s.conns[c])
    ensures s.conns[c].phase.WantTable? ==> !exists b :: WaitsFor(s, b, c)
    ensures s.conns[c].phase.WantRegistry? ==> !Blocked(s, d)
    ensures !s.conns[d].phase.WantTable?
  {
    assert ConnInv(s, c);
    WaitedForHolds(s, c, d);
    assert ConnInv(s, d);
    forall b | WaitsFor(s, b, c)
      ensures !s.conns[c].phase.WantTable?
    {
      WaitedForHolds(s, b, c);
    }
  }

  // Consecutive elements wait for each other.
  ghost predicate WaitChain(s: State, chain: seq<Conn>) {
    forall i :: 0 <= i < |chain| - 1 ==> WaitsFor(s, chain[i], chain[i + 1])
  }

  // A chain of waits has at most two links and never comes back to a connection it left: no
  // interleaving reaches a deadlock.
  lemma NoDeadlock(s: State, chain: seq<Conn>)
    requires Inv(s) && WaitChain(s, chain)
    ensures |chain| <= 3
    ensures forall i, j :: 0 <= i < j < |chain| ==> chain[i] != chain[j]
  {
    if |chain| >= 2 {
      WaitFacts(s, chain[0], chain[1]);
    }
    if |chain| >= 3 {
      WaitFacts(s, chain[1], chain[2]);
    }
    if |chain| >= 4 {
      assert WaitsFor(s, chain[2], chain[3]);
      assert Blocked(s, chain[2]);
    }
  }

  // Every wait ends, over at most two links, at a connection that waits for no lock.
  lemma WaitsEnd(s: State, c: Conn) returns (chain: seq<Conn>)
    requires Inv(s) && c in s.conns
    ensures |chain| > 0 && chain[0] == c && WaitChain(s, chain) && |chain| <= 3
    ensures chain[|chain| - 1] in s.conns && !Blocked(s, chain[|chain| - 1])
  {
    chain := [c];
    if Blocked(s, c) {
      var d :| WaitsFor(s, c, d);
      WaitFacts(s, c, d);
      chain := [c, d];
      if Blocked(s, d) {
        var e :| WaitsFor(s, d, e);
        WaitFacts(s, d, e);
        chain := [c, d, e];
      }
    }
  }

  // A table id that no table uses.
  lemma {:induction false} UnusedId(ids: set<TableId>) returns (newId: TableId)
    ensures newId !in ids && forall t :: t in ids ==> t < newId
    decreases |ids|
  {
    if ids == {} {
      newId := 0;
    } else {
      var t :| t in ids;
      newId := UnusedId(ids - {t});
      var others := newId;
      newId := if t < others then others else t + 1;
      forall u | u in ids
        ensures u < newId
      {
        assert u == t || u in ids - {t};
      }
    }
  }

  predicate Busy(k: Connection) {
    !k.phase.Idle? && !k.phase.Closed?
  }

  // A connection that is serving a request and is not blocked can take a step, without its client.
  lemma BusyCanStep(s: State, c: Conn) returns (step: Step)
    requires Inv(s) && c in s.conns && Busy(s.conns[c]) && !Blocked(s, c)
    ensures step.c == c && !step.Connect? && !step.Arrive? && Enabled(s, step)
  {
    var k := s.conns[c];
    assert ConnInv(s, c);
    match k.phase
    case WantRegistry(_) =>
      assert !WaitsFor(s, c, if s.registryOwner.Some? then s.registryOwner.value else 0);
      step := TakeRegistry(c);
    case HoldRegistry(_) =>
      var newId := UnusedId(s.tables.Keys);
      step := UseRegistry(c, newId);
    case LeaveRegistry(_, _) => step := DropRegistry(c);
    case AtTable(_, _) => step := TryTable(c);
    case InTable(_, _) => step := Access(c);
    case WantTable(_, t) =>
      assert !WaitsFor(s, c, if s.tables[t].owner.Some? then s.tables[t].owner.value else 0);
      step := TakeTable(c);
    case HoldTable(_, _) => step := AutoAccess(c);
    case FlushTable(_, _) => step := AutoFlush(c);
    case LeaveTable(t, _) =>
      assert t in Held(k);
      step := DropTable(c);
    case Committing(left, at) =>
      if at.Some? {
        assert at.value in Held(k);
        step := CommitUnlock(c);
      } else if left != {} {
        var t :| t in left;
        assert t in Held(k);
        step := CommitOne(c, t);
      } else {
        step := CommitDone(c);
      }
    case RollingBack(left, at, _) =>
      if at.Some? {
        assert at.value in Held(k);
        step := AbortUnlock(c);
      } else if left != {} {
        var t :| t in left;
        assert t in Held(k);
        step := AbortOne(c, t);
      } else {
        step := AbortDone(c);
      }
  }

  // While any request is being served, some connection can take a step of its own or an idle one,
  // inside a transaction, keeps the others waiting for its client's next request.
  lemma SomebodyMoves(s: State, c: Conn) returns (d: Conn)
    requires Inv(s) && c in s.conns && Busy(s.conns[c])
    ensures d in s.conns && !Blocked(s, d)
    ensures (exists step: Step :: step.c == d && !step.Connect? && !step.Arrive? && Enabled(s, step))
         || (s.conns[d].phase.Idle? && s.conns[d].sess.inTx && s.conns[d].locked != {})
  {
    var chain := WaitsEnd(s, c);
    d := chain[|chain| - 1];
    if Busy(s.conns[d]) {
      var step := BusyCanStep(s, d);
    } else {
      var b := chain[|chain| - 2];
      assert WaitsFor(s, b, d);
      assert ConnInv(s, b) && ConnInv(s, d);
      if s.conns[b].phase.WantTable? {
        assert TableInv(s, s.conns[b].phase.t);
      }
    }
  }

  // ---- every request ends

  // A bound on the steps a connection still takes to finish what it is doing.
  function Work(k: Connection): nat {
    match k.phase
    case Idle => 0
    case Closed => 0
    case WantRegistry(_) => 2 * |k.locked| + 9
    case HoldRegistry(_) => 2 * |k.locked| + 8
    case LeaveRegistry(_, _) => 2 * |k.locked| + 7
    case AtTable(_, _) => 2 * |k.locked| + 6
    case InTable(_, _) => 1
    case WantTable(_, _) => 6
    case HoldTable(_, _) => 5
    case FlushTable(_, _) => 4
    case LeaveTable(_, _) => 3
    case Committing(left, at) => 2 * |left| + (if at.Some? then 0 else 1)
    case RollingBack(left, at, _) => 2 * |left| + (if at.Some? then 0 else 1)
  }

  lemma RegistryWork(s: State, step: Step)
    requires Enabled(s, step) && (step.TakeRegistry? || step.UseRegistry? || step.DropRegistry?)
    requires !s.conns[step.c].sess.inTx ==> s.conns[step.c].locked == {}
    ensures Work(Apply(s, step).conns[step.c]) < Work(s.conns[step.c])
  {
    hide Receive;
  }

  lemma TryTableWork(s: State, c: Conn)
    requires Enabled(s, TryTable(c))
    ensures Work(Apply(s, TryTable(c)).conns[c]) < Work(s.conns[c])
  {
    hide Receive;
  }

  lemma AccessWork(s: State, c: Conn)
    requires Enabled(s, Access(c))
    ensures Work(Apply(s, Access(c)).conns[c]) < Work(s.conns[c])
  {
    hide Receive;
  }

  lemma AutoWork(s: State, step: Step)
    requires Enabled(s, step) && (step.TakeTable? || step.AutoAccess? || step.AutoFlush? || step.DropTable?)
    ensures Work(Apply(s, step).conns[step.c]) < Work(s.conns[step.c])
  {
    hide Receive;
  }

  lemma ReleaseWork(s: State, step: Step)
    requires Enabled(s, step) && step.c in s.conns && PhaseOk(s.conns[step.c])
    requires step.CommitOne? || step.CommitUnlock? || step.CommitDone?
          || step.AbortOne? || step.AbortUnlock? || step.AbortDone?
    ensures Work(Apply(s, step).conns[step.c]) < Work(s.conns[step.c])
  {
    hide Receive;
    var k, k' := s.conns[step.c], Apply(s, step).conns[step.c];
    if step.CommitUnlock? || step.AbortUnlock? {
      assert |k'.phase.left| == |k.phase.left| - 1;
    }
  }

  // Every step a connection takes brings it nearer to its next request: handlers and release loops
  // terminate, after visiting each held table once.
  lemma StepsDecreaseWork(s: State, step: Step)
    requires Inv(s) && Enabled(s, step) && !step.Connect? && !step.Arrive?
    ensures Work(Apply(s, step).conns[step.c]) < Work(s.conns[step.c])
  {
    assert ConnInv(s, step.c);
    hide Apply, Inv, ConnInv, Work;
    if step.TakeRegistry? || step.UseRegistry? || step.DropRegistry? {
      RegistryWork(s, step);
    } else if step.TryTable? {
      TryTableWork(s, step.c);
    } else if step.Access? {
      AccessWork(s, step.c);
    } else if step.TakeTable? || step.AutoAccess? || step.AutoFlush? || step.DropTable? {
      AutoWork(s, step);
    } else {
      ReleaseWork(s, step);
    }
  }
}
