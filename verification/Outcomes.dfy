/** What an aborted transaction leaves behind, and what the registry promises. */
module Outcomes {
  import opened Wrappers
  import opened Messages
  import opened Serialization
  import opened Lines
  import opened Sessions
  import opened Tables
  import opened Protocol
  import opened Ownership
  import opened Serializability
  import opened Wellformed

  // ---- abort

  // A transaction is open: BEGIN was answered, and COMMIT has not begun.
  predicate InOpenTx(k: Connection) {
    k.sess.inTx && !k.phase.Committing?
  }

  // c's transaction is open before each of the steps.
  ghost predicate OpenDuring(s: State, steps: seq<Step>, c: Conn)
    requires Run(s, steps)
    decreases |steps|
  {
    steps == [] || (c in s.conns && InOpenTx(s.conns[c]) && OpenDuring(Apply(s, steps[0]), steps[1..], c))
  }

  // What c made visible.
  function CommitsOf(history: seq<Item>, c: Conn): seq<Item> {
    if history == [] then [] else
      var item := history[|history| - 1];
      var before := CommitsOf(history[..|history| - 1], c);
      if item.Committed? && item.conn == c then before + [item] else before
  }

  lemma CommitsOfAppend(history: seq<Item>, item: Item, c: Conn)
    ensures CommitsOf(history + [item], c)
         == CommitsOf(history, c) + if item.Committed? && item.conn == c then [item] else []
  {
    assert (history + [item])[..|history|] == history;
  }

  // A step adds at most one item, and one of c only when c commits or works in autocommit mode.
  lemma OpenTxAddsNothing(s: State, step: Step, c: Conn)
    requires Inv(s) && Enabled(s, step) && c in s.conns && InOpenTx(s.conns[c])
    requires c in Apply(s, step).conns && !Apply(s, step).conns[c].phase.Committing?
    ensures CommitsOf(Apply(s, step).history, c) == CommitsOf(s.history, c)
  {
    var s' := Apply(s, step);
    assert ConnInv(s, c);
    if s'.history != s.history {
      var item := s'.history[|s.history|];
      assert s'.history == s.history + [item];
      CommitsOfAppend(s.history, item, c);
    }
  }

  // Only the commit loop's commit_changes, and an autocommit SET's, change a committed map.
  lemma CommittedMapsChange(s: State, step: Step, t: TableId)
    requires Enabled(s, step) && t in s.tables
    requires t in Apply(s, step).tables && Apply(s, step).tables[t].committed != s.tables[t].committed
    ensures (step.CommitOne? && step.t == t) || (step.AutoFlush? && s.conns[step.c].phase.t == t)
  {
  }

  // The step that ends a transaction without committing it is the end of its rollback loop.
  lemma EndOfRollback(s: State, step: Step, c: Conn)
    requires Inv(s) && Enabled(s, step) && c in s.conns && InOpenTx(s.conns[c])
    requires c in Apply(s, step).conns && !Apply(s, step).conns[c].sess.inTx
    ensures var k' := Apply(s, step).conns[c];
            k'.locked == {} && k'.log == [] && (k'.phase.Idle? || k'.phase.Closed?)
  {
    assert ConnInv(s, c);
    if step.Arrive? && step.c == c {
      ReceiveShape(s.conns[c], step.line);
    }
  }

  ghost predicate OwnsNothing(s: State, c: Conn) {
    forall t :: t in s.tables ==>
      && s.tables[t].owner != Some(c)
      && (s.tables[t].owner.None? ==> s.tables[t].pending == map[])
  }

  lemma NothingHeldNothingOwned(s: State, c: Conn)
    requires Inv(s) && c in s.conns && Held(s.conns[c]) == {}
    ensures OwnsNothing(s, c)
  {
    forall t | t in s.tables
      ensures s.tables[t].owner != Some(c) && (s.tables[t].owner.None? ==> s.tables[t].pending == map[])
    {
      assert TableInv(s, t);
    }
  }

  // A transaction that ends without COMMIT, whatever ended it: none of its accesses is in the
  // history, whose serial run is still the database; it owns no table; and every pending map left
  // belongs to somebody else.
  lemma {:induction false} AbortLeavesNoTrace(s: State, steps: seq<Step>, c: Conn)
    requires Inv(s) && SerialInv(s) && Run(s, steps) && OpenDuring(s, steps, c)
    requires c in s.conns && InOpenTx(s.conns[c])
    requires c in After(s, steps).conns && !After(s, steps).conns[c].sess.inTx
    ensures var s' := After(s, steps);
            && CommitsOf(s'.history, c) == CommitsOf(s.history, c)
            && Serial(s'.history) == Some(AbstractDb(s'))
            && s'.conns[c].locked == {} && s'.conns[c].log == [] && OwnsNothing(s', c)
    decreases |steps|
  {
    var s1 := Apply(s, steps[0]);
    StepKeepsInv(s, steps[0]);
    StepKeepsSerial(s, steps[0]);
    assert c in s1.conns;
    if steps[1..] == [] {
      assert ConnInv(s1, c);
      EndOfRollback(s, steps[0], c);
      OpenTxAddsNothing(s, steps[0], c);
      NothingHeldNothingOwned(s1, c);
    } else {
      OpenTxAddsNothing(s, steps[0], c);
      AbortLeavesNoTrace(s1, steps[1..], c);
    }
  }

  predicate EndsTxKind(kind: MessageType) {
    kind.BYE? || kind.BEGIN? || kind.OK? || kind.FAILED? || kind.ERROR? || kind.DATA?
  }

  // The requests that end an open transaction without committing it.
  predicate EndsTx(line: string) {
    line == [] || match Decode(CString(line))
                  case Err(_) => true
                  case Ok(m) => EndsTxKind(m.kind)
  }

  // End of input, an invalid message, BYE and a nested BEGIN enter the rollback loop over every
  // locked table; every other request, refused or not, leaves locks and writes in place.
  lemma EveryExitRollsBack(s: State, c: Conn, line: string)
    requires Reachable(s) && c in s.conns && s.conns[c].phase.Idle? && s.conns[c].sess.inTx && |line| <= MAX_LINE
    ensures var k, k' := s.conns[c], Receive(s.conns[c], line);
            && k'.sess.inTx && k'.locked == k.locked && k'.log == k.log
            && (EndsTx(line) <==> k'.phase.RollingBack?)
            && (EndsTx(line) ==> k'.phase.left == k.locked && k'.phase.at.None?)
            && (k'.phase.Committing? <==> line != [] && Decode(CString(line)) == Ok(Msg(COMMIT, [])))
  {
    hide *;
    LoggedInWithGoodStack(s, c);
    ReceiveInTx(s.conns[c], line);
  }

  // Only a connection that has logged in has a transaction open, and its stack holds legal values.
  lemma LoggedInWithGoodStack(s: State, c: Conn)
    requires Reachable(s) && c in s.conns
    ensures s.conns[c].sess.inTx ==> s.conns[c].sess.loggedIn
    ensures GoodStack(s.conns[c].sess.stack)
  {
    ReachableInv(s);
    ReachableWell(s);
    hide Reachable, GoodPhase, GoodReplies, GoodStack;
    assert ConnInv(s, c) && GoodConn(s.conns[c], s.registry.Keys);
  }

  lemma ReceiveInTx(k: Connection, line: string)
    requires k.phase.Idle? && k.sess.inTx && k.sess.loggedIn && GoodStack(k.sess.stack)
    ensures var k' := Receive(k, line);
            && k'.sess.inTx && k'.locked == k.locked && k'.log == k.log
            && (EndsTx(line) <==> k'.phase.RollingBack?)
            && (EndsTx(line) ==> k'.phase.left == k.locked && k'.phase.at.None?)
            && (k'.phase.Committing? <==> line != [] && Decode(CString(line)) == Ok(Msg(COMMIT, [])))
  {
    hide Decode, Handle;
    if line != [] {
      DispatchInTx(k.sess, line);
      ActInTx(k.(requests := k.requests + 1), Dispatch(k.sess, line));
    }
  }

  lemma ActInTx(k: Connection, a: Action)
    requires k.phase.Idle? && k.sess.inTx && (a.Answer? || a.Start? ==> a.sess.inTx)
    ensures var k' := Act(k, a);
            && k'.sess.inTx && k'.locked == k.locked && k'.log == k.log
            && (k'.phase.RollingBack? <==> a.Leave? || a.Abort?)
            && (k'.phase.RollingBack? ==> k'.phase.left == k.locked && k'.phase.at.None?)
            && (k'.phase.Committing? <==> a.Commit?)
  {
  }

  lemma DispatchInTx(sess: Session, line: string)
    requires sess.inTx && sess.loggedIn && GoodStack(sess.stack) && line != []
    ensures var a := Dispatch(sess, line);
            && (a.Leave? || a.Abort? <==> EndsTx(line))
            && (a.Commit? <==> Decode(CString(line)) == Ok(Msg(COMMIT, [])))
            && (a.Answer? ==> a.sess.inTx) && (a.Start? ==> a.sess.inTx)
  {
    match Decode(CString(line))
    case Ok(m) => HandleInTx(sess, m);
    case Err(_) =>
  }

  lemma HandleInTx(sess: Session, m: Msg)
    requires m.Valid() && sess.inTx && sess.loggedIn && GoodStack(sess.stack)
    ensures var a := Handle(sess, m);
            && (a.Leave? || a.Abort? <==> EndsTxKind(m.kind))
            && (a.Commit? <==> m == Msg(COMMIT, []))
            && (a.Answer? ==> a.sess.inTx) && (a.Start? ==> a.sess.inTx)
  {
    if m.kind.TOP? && sess.stack != [] {
      DataReply(Last(sess.stack));
    }
  }

  // A table somebody else has locked ends the transaction too.
  lemma LockFailureRollsBack(s: State, c: Conn)
    requires Inv(s) && Enabled(s, TryTable(c))
    ensures var k, k' := s.conns[c], ApplyTryTable(s, c).conns[c];
            if s.tables[k.phase.t].owner.Some? && s.tables[k.phase.t].owner != Some(c)
            then k'.phase == RollingBack(k.locked, None, Some(FailedReply(LOCK_FAILED + k.phase.job.name)))
            else k'.phase == InTable(k.phase.job, k.phase.t) && k'.locked == k.locked + {k.phase.t}
  {
    assert ConnInv(s, c) && TableInv(s, s.conns[c].phase.t);
  }

  // ---- the registry

  lemma {:induction false} RegistryGrows(s: State, steps: seq<Step>)
    requires Run(s, steps)
    ensures forall n :: n in s.registry ==>
            n in After(s, steps).registry && After(s, steps).registry[n] == s.registry[n]
    decreases |steps|
  {
    if steps != [] {
      RegistryGrows(Apply(s, steps[0]), steps[1..]);
    }
  }

  // Two names never share a table.
  lemma NamesDoNotShare(s: State, n: string, m: string)
    requires Inv(s) && n in s.registry && m in s.registry && s.registry[n] == s.registry[m]
    ensures n == m
  {
    assert TableNamed(s, s.registry[n], n) && TableNamed(s, s.registry[m], m);
  }

  // Once a lookup of a name has succeeded, every later one finds the same table.
  lemma LookupsAgree(s: State, steps: seq<Step>, c: Conn, d: Conn, i: TableId, j: TableId, t: TableId)
    requires Run(s, steps) && Enabled(s, UseRegistry(c, i)) && Enabled(After(s, steps), UseRegistry(d, j))
    requires var job := s.conns[c].phase.job;
             !job.CreateJob? && ApplyUseRegistry(s, c, i).conns[c].phase == LeaveRegistry(job, Found(t))
    requires var job := After(s, steps).conns[d].phase.job; !job.CreateJob? && job.name == s.conns[c].phase.job.name
    ensures ApplyUseRegistry(After(s, steps), d, j).conns[d].phase
            == LeaveRegistry(After(s, steps).conns[d].phase.job, Found(t))
  {
    RegistryGrows(s, steps);
  }

  predicate Creates(s: State, step: Step, name: string)
    requires Enabled(s, step)
  {
    step.UseRegistry?
    && s.conns[step.c].phase.job == CreateJob(name)
    && Apply(s, step).conns[step.c].phase == LeaveRegistry(CreateJob(name), Made)
  }

  // How many CREATEs of a name succeed during a run.
  function SuccessfulCreates(s: State, steps: seq<Step>, name: string): nat
    requires Run(s, steps)
    decreases |steps|
  {
    if steps == [] then 0
    else (if Creates(s, steps[0], name) then 1 else 0) + SuccessfulCreates(Apply(s, steps[0]), steps[1..], name)
  }

  // Of all the CREATEs of a name, exactly one succeeds if the table comes to exist, else none.
  lemma {:induction false} OneCreateSucceeds(s: State, steps: seq<Step>, name: string)
    requires Run(s, steps)
    ensures SuccessfulCreates(s, steps, name)
         == if name in After(s, steps).registry && name !in s.registry then 1 else 0
    decreases |steps|
  {
    if steps != [] {
      var s1 := Apply(s, steps[0]);
      OneCreateSucceeds(s1, steps[1..], name);
      RegistryGrows(s1, steps[1..]);
    }
  }

  // A refused CREATE means the table was there.
  lemma RefusedCreate(s: State, c: Conn, newId: TableId, name: string)
    requires Enabled(s, UseRegistry(c, newId)) && s.conns[c].phase.job == CreateJob(name)
    ensures Creates(s, UseRegistry(c, newId), name) <==> name !in s.registry
    ensures !Creates(s, UseRegistry(c, newId), name) ==>
              ApplyUseRegistry(s, c, newId).conns[c].phase == LeaveRegistry(CreateJob(name), Duplicate)
  {
  }
}
