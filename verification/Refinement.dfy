/** The classes and the state machine agree: serving a request while the other threads stand still
    is a run of the machine. */
module Refinement {
  import opened Wrappers
  import opened Messages
  import opened Serialization
  import opened Lines
  import opened Sessions
  import opened Tables
  import opened Protocol
  import opened Ownership
  import opened Progress
  import H = Handlers

  // What the classes hold of a state: the tables by name, and one connection's own state.
  function WorldOf(s: State): H.World {
    H.World(map n | n in s.registry && s.registry[n] in s.tables :: s.tables[s.registry[n]], s.registryOwner)
  }

  function LocalOf(s: State, c: Conn): H.Local
    requires c in s.conns
  {
    H.Local(s.conns[c].sess, set n | n in s.registry && s.registry[n] in s.conns[c].locked :: n)
  }

  ghost predicate SoloRun(s: State, steps: seq<Step>, c: Conn)
  {
    Run(s, steps) && forall i :: 0 <= i < |steps| ==> steps[i].c == c
  }

  lemma {:induction false} RunAppend(s: State, a: seq<Step>, b: seq<Step>)
    requires Run(s, a) && Run(After(s, a), b)
    ensures Run(s, a + b) && After(s, a + b) == After(After(s, a), b)
    decreases |a|
  {
    if a == [] {
      assert a + b == b;
    } else {
      assert (a + b)[1..] == a[1..] + b;
      RunAppend(Apply(s, a[0]), a[1..], b);
    }
  }

  lemma RunOne(s: State, step: Step)
    requires Enabled(s, step)
    ensures Run(s, [step]) && After(s, [step]) == Apply(s, step)
  {
    assert [step][1..] == [];
    assert Run(Apply(s, step), []);
  }

  lemma Extend(s: State, steps: seq<Step>, step: Step, c: Conn) returns (longer: seq<Step>)
    requires SoloRun(s, steps, c) && Enabled(After(s, steps), step) && step.c == c
    ensures SoloRun(s, longer, c) && After(s, longer) == Apply(After(s, steps), step)
  {
    RunOne(After(s, steps), step);
    RunAppend(s, steps, [step]);
    longer := steps + [step];
  }

  // ---- the release loops

  function LoopPhase(left: set<TableId>, commit: bool, answer: Option<Msg>): Phase {
    if commit then Committing(left, None) else RollingBack(left, None, answer)
  }

  function ReleaseTables(s: State, left: set<TableId>, commit: bool): State {
    s.(tables := map t | t in s.tables :: if t in left then Released(s.tables[t], commit) else s.tables[t])
  }

  // Run alone, a release loop releases every table it has left, in some order, and nothing else.
  lemma {:induction false} SoloRelease(s: State, c: Conn, left: set<TableId>, commit: bool, answer: Option<Msg>)
    returns (steps: seq<Step>)
    requires c in s.conns && s.conns[c].phase == LoopPhase(left, commit, answer) && left <= s.tables.Keys
    ensures SoloRun(s, steps, c)
    ensures After(s, steps)
         == SetConn(ReleaseTables(s, left, commit), c, s.conns[c].(phase := LoopPhase({}, commit, answer)))
    decreases |left|
  {
    if left == {} {
      steps := [];
      assert ReleaseTables(s, left, commit) == s;
    } else {
      var t :| t in left;
      var s1 := ReleaseOne(s, c, t, left, commit, answer);
      var first := if commit then [CommitOne(c, t), CommitUnlock(c)] else [AbortOne(c, t), AbortUnlock(c)];
      ReleaseRest(s, s1, c, t, left, commit, answer);
      var rest := SoloRelease(s1, c, left - {t}, commit, answer);
      RunAppend(s, first, rest);
      steps := first + rest;
    }
  }

  // Releasing the rest after one table is releasing all.
  lemma ReleaseRest(s: State, s1: State, c: Conn, t: TableId, left: set<TableId>, commit: bool, answer: Option<Msg>)
    requires c in s.conns && t in left && t in s.tables
    requires s1 == SetBoth(s, c, s.conns[c].(phase := LoopPhase(left - {t}, commit, answer)), t,
             Released(s.tables[t], commit))
    ensures SetConn(ReleaseTables(s1, left - {t}, commit), c, s1.conns[c].(phase := LoopPhase({}, commit, answer)))
         == SetConn(ReleaseTables(s, left, commit), c, s.conns[c].(phase := LoopPhase({}, commit, answer)))
  {
    assert ReleaseTables(s1, left - {t}, commit).tables == ReleaseTables(s, left, commit).tables;
  }

  lemma ReleaseOne(s: State, c: Conn, t: TableId, left: set<TableId>, commit: bool, answer: Option<Msg>)
    returns (s1: State)
    requires c in s.conns && s.conns[c].phase == LoopPhase(left, commit, answer) && t in left && t in s.tables
    ensures s1 == SetBoth(s, c, s.conns[c].(phase := LoopPhase(left - {t}, commit, answer)), t,
                          Released(s.tables[t], commit))
    ensures var first := if commit then [CommitOne(c, t), CommitUnlock(c)] else [AbortOne(c, t), AbortUnlock(c)];
            SoloRun(s, first, c) && After(s, first) == s1
  {
    var a := if commit then CommitOne(c, t) else AbortOne(c, t);
    var b := if commit then CommitUnlock(c) else AbortUnlock(c);
    ReleasedInTwo(s, c, t, left, commit, answer);
    hide Apply, Enabled;
    RunOne(s, a);
    RunOne(Apply(s, a), b);
    RunAppend(s, [a], [b]);
    assert [a] + [b] == [a, b];
    s1 := Apply(Apply(s, a), b);
  }

  lemma ReleasedInTwo(s: State, c: Conn, t: TableId, left: set<TableId>, commit: bool, answer: Option<Msg>)
    requires c in s.conns && s.conns[c].phase == LoopPhase(left, commit, answer) && t in left && t in s.tables
    ensures var a := if commit then CommitOne(c, t) else AbortOne(c, t);
            var b := if commit then CommitUnlock(c) else AbortUnlock(c);
            && Enabled(s, a) && Enabled(Apply(s, a), b)
            && Apply(Apply(s, a), b) == SetBoth(s, c, s.conns[c].(phase := LoopPhase(left - {t}, commit, answer)), t,
                                                Released(s.tables[t], commit))
  {
    hide Receive;
  }

  // Releasing the locked tables by id is releasing them by name.
  lemma ReleaseByName(s: State, c: Conn, commit: bool)
    requires Inv(s) && c in s.conns
    ensures WorldOf(ReleaseTables(s, s.conns[c].locked, commit))
         == if commit then H.CommitAll(WorldOf(s), LocalOf(s, c).locked)
            else H.RollbackAll(WorldOf(s), LocalOf(s, c).locked)
  {
  }

  lemma LockedExist(s: State, c: Conn)
    requires Inv(s) && c in s.conns && Held(s.conns[c]) == s.conns[c].locked
    ensures s.conns[c].locked <= s.tables.Keys
  {
    assert ConnInv(s, c);
  }

  // COMMIT, from the moment it begins.
  lemma SoloCommit(s: State, c: Conn) returns (steps: seq<Step>)
    requires Inv(s) && c in s.conns && s.conns[c].phase == Committing(s.conns[c].locked, None)
    ensures SoloRun(s, steps, c) && c in After(s, steps).conns
    ensures var s' := After(s, steps);
            && WorldOf(s') == H.CommitAll(WorldOf(s), LocalOf(s, c).locked)
            && LocalOf(s', c) == H.AfterTx(LocalOf(s, c))
            && s'.conns[c].phase.Idle? && s'.conns[c].replies == s.conns[c].replies + [OK_REPLY]
  {
    LockedExist(s, c);
    var loop := SoloRelease(s, c, s.conns[c].locked, true, None);
    ReleaseByName(s, c, true);
    steps := Extend(s, loop, CommitDone(c), c);
    assert WorldOf(After(s, steps)) == WorldOf(ReleaseTables(s, s.conns[c].locked, true));
  }

  // A rollback, from the moment it begins: with a reply, or as the destructor.
  lemma SoloAbort(s: State, c: Conn) returns (steps: seq<Step>)
    requires Inv(s) && c in s.conns && s.conns[c].phase.RollingBack?
    requires s.conns[c].phase.left == s.conns[c].locked && s.conns[c].phase.at.None?
    ensures SoloRun(s, steps, c) && c in After(s, steps).conns
    ensures var s' := After(s, steps);
            && WorldOf(s') == H.RollbackAll(WorldOf(s), LocalOf(s, c).locked)
            && LocalOf(s', c) == H.AfterTx(LocalOf(s, c))
            && match s.conns[c].phase.answer
               case Some(reply) => s'.conns[c].phase.Idle? && s'.conns[c].replies == s.conns[c].replies + [reply]
               case None => s'.conns[c].phase.Closed? && s'.conns[c].replies == s.conns[c].replies
  {
    LockedExist(s, c);
    var loop := SoloRelease(s, c, s.conns[c].locked, false, s.conns[c].phase.answer);
    ReleaseByName(s, c, false);
    steps := Extend(s, loop, AbortDone(c), c);
    assert WorldOf(After(s, steps)) == WorldOf(ReleaseTables(s, s.conns[c].locked, false));
  }

  // ---- the jobs

  // How a served job shows in the machine.
  ghost predicate Shows(s: State, c: Conn, replies: seq<Msg>, served: H.Served) {
    c in s.conns && WorldOf(s) == served.w && LocalOf(s, c) == served.k
    && match served
       case Replied(_, _, reply) => s.conns[c].phase.Idle? && s.conns[c].replies == replies + [reply]
       case Fails(_, _, text) =>
         s.conns[c].phase == RollingBack(s.conns[c].locked, None, Some(FailedReply(text)))
           && s.conns[c].replies == replies
       case Leaves(_, _, _) => false
       case Waits(_, _) =>
         (s.conns[c].phase.WantRegistry? || s.conns[c].phase.WantTable?) && Blocked(s, c)
           && s.conns[c].replies == replies
  }

  lemma NameHeld(s: State, c: Conn, n: string)
    requires Inv(s) && c in s.conns && n in s.registry
    ensures n in LocalOf(s, c).locked <==> s.registry[n] in s.conns[c].locked
  {
  }

  // Writing one table by id is writing it by name.
  lemma OneTable(s: State, n: string, e: TableState)
    requires Inv(s) && n in s.registry
    ensures WorldOf(s.(tables := s.tables[s.registry[n] := e])) == H.SetTable(WorldOf(s), n, e)
  {
    hide ConnInv, TableInv;
    assert forall m :: m in s.registry ==> TableNamed(s, s.registry[m], m);
    forall m | m in s.registry && s.registry[m] == s.registry[n]
      ensures m == n
    {
      assert TableNamed(s, s.registry[m], m) && TableNamed(s, s.registry[n], n);
    }
    hide Inv, TableNamed;
    var s' := s.(tables := s.tables[s.registry[n] := e]);
    assert WorldOf(s').tables == WorldOf(s).tables[n := e];
  }

  // The access itself, in a transaction that has the table.
  lemma SoloAccess(s: State, c: Conn) returns (steps: seq<Step>)
    requires Inv(s) && c in s.conns && s.conns[c].phase.InTable?
    ensures SoloRun(s, steps, c)
    ensures var job := s.conns[c].phase.job;
            && !job.CreateJob? && job.name in WorldOf(s).tables
            && Shows(After(s, steps), c, s.conns[c].replies, H.ServeLocked(WorldOf(s), LocalOf(s, c), job))
  {
    var k := s.conns[c];
    var t, job := k.phase.t, k.phase.job;
    assert ConnInv(s, c) && TableInv(s, t);
    RunOne(s, Access(c));
    steps := [Access(c)];
    var s' := Apply(s, Access(c));
    assert After(s, steps) == s';
    OneTable(s, job.name, s'.tables[t]);
    assert LocalOf(s', c).locked == LocalOf(s, c).locked;
  }

  lemma SoloInTx(s: State, c: Conn) returns (steps: seq<Step>)
    requires Inv(s) && c in s.conns && s.conns[c].phase.AtTable?
    ensures SoloRun(s, steps, c)
    ensures var job := s.conns[c].phase.job;
            && !job.CreateJob? && job.name in WorldOf(s).tables
            && Shows(After(s, steps), c, s.conns[c].replies, H.ServeInTx(WorldOf(s), LocalOf(s, c), c, job))
  {
    var k := s.conns[c];
    var t, job := k.phase.t, k.phase.job;
    assert ConnInv(s, c) && TableInv(s, t);
    var s1 := Apply(s, TryTable(c));
    StepKeepsInv(s, TryTable(c));
    RunOne(s, TryTable(c));
    NameHeld(s, c, job.name);
    if s1.conns[c].phase.InTable? {
      OneTable(s, job.name, s1.tables[t]);
      assert WorldOf(s1) == if t in k.locked then WorldOf(s)
             else H.SetTable(WorldOf(s), job.name, Locked(s.tables[t], c));
      LockedNames(s, s1, c, job.name);
      var rest := SoloAccess(s1, c);
      RunAppend(s, [TryTable(c)], rest);
      steps := [TryTable(c)] + rest;
    } else {
      steps := [TryTable(c)];
    }
  }

  // Locking a table adds its name.
  lemma LockedNames(s: State, s1: State, c: Conn, n: string)
    requires Inv(s) && c in s.conns && c in s1.conns && n in s.registry && s1.registry == s.registry
    requires s1.conns[c].locked == s.conns[c].locked + {s.registry[n]}
    ensures LocalOf(s1, c).locked == LocalOf(s, c).locked + {n}
  {
    forall m | m in s.registry && s.registry[m] == s.registry[n]
      ensures m == n
    {
      assert TableNamed(s, s.registry[m], m) && TableNamed(s, s.registry[n], n);
    }
  }

  lemma SoloAuto(s: State, c: Conn) returns (steps: seq<Step>)
    requires Inv(s) && c in s.conns && s.conns[c].phase.WantTable?
    ensures SoloRun(s, steps, c)
    ensures var job := s.conns[c].phase.job;
            && !job.CreateJob? && job.name in WorldOf(s).tables
            && Shows(After(s, steps), c, s.conns[c].replies, H.ServeAuto(WorldOf(s), LocalOf(s, c), job))
  {
    var k := s.conns[c];
    var t, job := k.phase.t, k.phase.job;
    assert ConnInv(s, c) && TableInv(s, t);
    if s.tables[t].owner.Some? {
      assert WaitsFor(s, c, s.tables[t].owner.value);
      steps := [];
    } else if job.GetJob? {
      steps := SoloAutoGet(s, c);
    } else {
      steps := SoloAutoSet(s, c);
    }
  }

  lemma SoloAutoGet(s: State, c: Conn) returns (steps: seq<Step>)
    requires Inv(s) && c in s.conns && s.conns[c].phase.WantTable? && s.conns[c].phase.job.GetJob?
    requires s.conns[c].phase.t in s.tables && s.tables[s.conns[c].phase.t].owner.None?
    ensures SoloRun(s, steps, c) && s.conns[c].phase.job.name in WorldOf(s).tables
    ensures Shows(After(s, steps), c, s.conns[c].replies, H.ServeAuto(WorldOf(s), LocalOf(s, c), s.conns[c].phase.job))
  {
    hide Apply, Enabled, Inv;
    TakeResult(s, c);
    RunOne(s, TakeTable(c));
    steps := [TakeTable(c)];
    AutoGetResult(After(s, steps), c);
    steps := Extend(s, steps, AutoAccess(c), c);
    DropResult(After(s, steps), c);
    steps := Extend(s, steps, DropTable(c), c);
    assert After(s, steps).tables == s.tables;
    AutoGetShows(s, After(s, steps), c);
  }

  // The connection and the reply after an autocommit GET.
  function AutoFetched(s: State, c: Conn): (Connection, Msg)
    requires c in s.conns && (s.conns[c].phase.WantTable? || s.conns[c].phase.HoldTable?)
    requires s.conns[c].phase.job.GetJob? && s.conns[c].phase.t in s.tables
  {
    Fetched(s.conns[c], Visible(s.tables[s.conns[c].phase.t], s.conns[c].phase.job.key))
  }

  lemma AutoGetResult(s: State, c: Conn)
    requires c in s.conns && s.conns[c].phase.HoldTable? && s.conns[c].phase.job.GetJob?
             && s.conns[c].phase.t in s.tables
    ensures Enabled(s, AutoAccess(c))
    ensures var (k', reply), s' := AutoFetched(s, c), Apply(s, AutoAccess(c));
            s' == SetConn(s, c, k'.(phase := LeaveTable(s.conns[c].phase.t, reply))).(history := s'.history)
  {
  }

  lemma AutoGetShows(s: State, s': State, c: Conn)
    requires Inv(s) && c in s.conns && s.conns[c].phase.WantTable? && s.conns[c].phase.job.GetJob?
    requires s.conns[c].phase.t in s.tables && s.tables[s.conns[c].phase.t].owner.None?
    requires s' == s.(conns := s'.conns, history := s'.history)
    requires var (k', reply) := AutoFetched(s, c); c in s'.conns && s'.conns[c] == Answered(k', reply)
    ensures s.conns[c].phase.job.name in WorldOf(s).tables
    ensures Shows(s', c, s.conns[c].replies, H.ServeAuto(WorldOf(s), LocalOf(s, c), s.conns[c].phase.job))
  {
    assert ConnInv(s, c) && TableInv(s, s.conns[c].phase.t);
    assert LocalOf(s', c).locked == LocalOf(s, c).locked;
  }

  // What each step of an autocommit request gives.
  lemma TakeResult(s: State, c: Conn)
    requires c in s.conns && s.conns[c].phase.WantTable? && s.conns[c].phase.t in s.tables
    requires s.tables[s.conns[c].phase.t].owner.None?
    ensures Enabled(s, TakeTable(c))
    ensures var k, t := s.conns[c], s.conns[c].phase.t;
            Apply(s, TakeTable(c)) == SetBoth(s, c, k.(phase := HoldTable(k.phase.job, t)), t, Locked(s.tables[t], c))
  {
  }

  lemma AutoSetResult(s: State, c: Conn)
    requires c in s.conns && s.conns[c].phase.HoldTable? && s.conns[c].phase.job.SetJob?
             && s.conns[c].phase.t in s.tables
    ensures Enabled(s, AutoAccess(c))
    ensures var k, t, job := s.conns[c], s.conns[c].phase.t, s.conns[c].phase.job;
            Apply(s, AutoAccess(c))
              == SetBoth(s, c, k.(phase := FlushTable(job, t)), t, Written(s.tables[t], job.key, job.value))
  {
  }

  lemma AutoFlushResult(s: State, c: Conn)
    requires c in s.conns && s.conns[c].phase.FlushTable? && s.conns[c].phase.job.SetJob?
             && s.conns[c].phase.t in s.tables
    ensures Enabled(s, AutoFlush(c))
    ensures var k, t, s' := s.conns[c], s.conns[c].phase.t, Apply(s, AutoFlush(c));
            s' == SetBoth(s, c, k.(phase := LeaveTable(t, OK_REPLY)), t, Saved(s.tables[t])).(history := s'.history)
  {
  }

  lemma DropResult(s: State, c: Conn)
    requires c in s.conns && s.conns[c].phase.LeaveTable? && s.conns[c].phase.t in s.tables
    ensures Enabled(s, DropTable(c))
    ensures var k, t := s.conns[c], s.conns[c].phase.t;
            Apply(s, DropTable(c)) == SetBoth(s, c, Answered(k, k.phase.reply), t, Unlocked(s.tables[t]))
  {
  }

  lemma SoloAutoSet(s: State, c: Conn) returns (steps: seq<Step>)
    requires Inv(s) && c in s.conns && s.conns[c].phase.WantTable? && s.conns[c].phase.job.SetJob?
    requires s.conns[c].phase.t in s.tables && s.tables[s.conns[c].phase.t].owner.None?
    ensures SoloRun(s, steps, c) && s.conns[c].phase.job.name in WorldOf(s).tables
    ensures Shows(After(s, steps), c, s.conns[c].replies, H.ServeAuto(WorldOf(s), LocalOf(s, c), s.conns[c].phase.job))
  {
    var k := s.conns[c];
    var t, job := k.phase.t, k.phase.job;
    hide Apply, Enabled, Inv, Run, After, Shows, WorldOf, LocalOf;
    TakeResult(s, c);
    RunOne(s, TakeTable(c));
    steps := [TakeTable(c)];
    AutoSetResult(After(s, steps), c);
    steps := Extend(s, steps, AutoAccess(c), c);
    AutoFlushResult(After(s, steps), c);
    steps := Extend(s, steps, AutoFlush(c), c);
    DropResult(After(s, steps), c);
    steps := Extend(s, steps, DropTable(c), c);
    assert After(s, steps).tables == s.tables[t := Saved(Written(s.tables[t], job.key, job.value))];
    AutoSetShows(s, After(s, steps), c);
  }

  lemma AutoSetShows(s: State, s': State, c: Conn)
    requires Inv(s) && c in s.conns && s.conns[c].phase.WantTable? && s.conns[c].phase.job.SetJob?
    requires s.conns[c].phase.t in s.tables && s.tables[s.conns[c].phase.t].owner.None?
    requires var k := s.conns[c];
             s' == s.(conns := s'.conns, history := s'.history,
                      tables := s.tables[k.phase.t := Saved(Written(s.tables[k.phase.t], k.phase.job.key,
                        k.phase.job.value))])
    requires c in s'.conns && s'.conns[c] == Answered(s.conns[c], OK_REPLY)
    ensures s.conns[c].phase.job.name in WorldOf(s).tables
    ensures Shows(s', c, s.conns[c].replies, H.ServeAuto(WorldOf(s), LocalOf(s, c), s.conns[c].phase.job))
  {
    var k := s.conns[c];
    var t, job := k.phase.t, k.phase.job;
    assert ConnInv(s, c) && TableInv(s, t);
    OneTable(s, job.name, Saved(Written(s.tables[t], job.key, job.value)));
    assert LocalOf(s', c).locked == LocalOf(s, c).locked;
  }

  // Any job, from the moment its thread asks for the registry.
  lemma SoloJob(s: State, c: Conn) returns (steps: seq<Step>)
    requires Inv(s) && c in s.conns && s.conns[c].phase.WantRegistry?
    ensures SoloRun(s, steps, c)
    ensures Shows(After(s, steps), c, s.conns[c].replies,
            H.ServeJob(WorldOf(s), LocalOf(s, c), c, s.conns[c].phase.job))
  {
    var job := s.conns[c].phase.job;
    if s.registryOwner.Some? {
      assert WaitsFor(s, c, s.registryOwner.value);
      steps := [];
    } else {
      steps := SoloRegistry(s, c);
      var s1 := After(s, steps);
      RunKeepsInv(s, steps);
      if s1.conns[c].phase.AtTable? {
        var rest := SoloInTx(s1, c);
        RunAppend(s, steps, rest);
        steps := steps + rest;
      } else if s1.conns[c].phase.WantTable? {
        var rest := SoloAuto(s1, c);
        RunAppend(s, steps, rest);
        steps := steps + rest;
      }
    }
  }

  // In and out of the registry: a CREATE is over, a lookup goes on to the table or has failed.
  lemma SoloRegistry(s: State, c: Conn) returns (steps: seq<Step>)
    requires Inv(s) && c in s.conns && s.conns[c].phase.WantRegistry? && s.registryOwner.None?
    ensures SoloRun(s, steps, c) && c in After(s, steps).conns
    ensures var s', k, job := After(s, steps), s.conns[c], s.conns[c].phase.job;
            if !job.CreateJob? && job.name in s.registry then
              && s' == SetConn(s, c, k.(phase := s'.conns[c].phase))
              && s'.conns[c].phase == if k.sess.inTx then AtTable(job, s.registry[job.name])
                 else WantTable(job, s.registry[job.name])
            else Shows(s', c, k.replies, H.ServeJob(WorldOf(s), LocalOf(s, c), c, job))
  {
    hide Inv, Receive, Shows;
    var k := s.conns[c];
    var job := k.phase.job;
    var newId := UnusedId(s.tables.Keys);
    RunOne(s, TakeRegistry(c));
    steps := Extend(s, [TakeRegistry(c)], UseRegistry(c, newId), c);
    steps := Extend(s, steps, DropRegistry(c), c);
    var s' := After(s, steps);
    if job.CreateJob? && job.name !in s.registry {
      CreatedShows(s, s', c, newId);
    } else {
      assert s' == SetConn(s, c, s'.conns[c]);
      if job.CreateJob? || job.name !in s.registry {
        LookupShows(s, s', c);
      }
    }
  }

  // A new table is a new name of the world.
  lemma CreatedShows(s: State, s': State, c: Conn, newId: TableId)
    requires Inv(s) && c in s.conns && s.conns[c].phase.WantRegistry? && s.registryOwner.None? && newId !in s.tables
    requires var k := s.conns[c];
             && k.phase.job.CreateJob? && k.phase.job.name !in s.registry
             && s'.conns == s.conns[c := Answered(k, OK_REPLY)] && s'.registryOwner == None
             && s'.registry == s.registry[k.phase.job.name := newId]
             && s'.tables == s.tables[newId := NewTable(k.phase.job.name)]
    ensures Shows(s', c, s.conns[c].replies, H.ServeJob(WorldOf(s), LocalOf(s, c), c, s.conns[c].phase.job))
  {
    var name := s.conns[c].phase.job.name;
    WorldAfterCreate(s, s', name, newId);
    LockedExist(s, c);
    assert LocalOf(s', c).locked == LocalOf(s, c).locked;
    assert H.ServeJob(WorldOf(s), LocalOf(s, c), c, CreateJob(name)) == H.Replied(WorldOf(s'), LocalOf(s, c), OK_REPLY);
  }

  lemma WorldAfterCreate(s: State, s': State, name: string, newId: TableId)
    requires Inv(s) && name !in s.registry && newId !in s.tables
    requires s'.registryOwner == s.registryOwner && s'.registry == s.registry[name := newId]
    requires s'.tables == s.tables[newId := NewTable(name)]
    ensures WorldOf(s') == H.SetTable(WorldOf(s), name, NewTable(name))
  {
    hide ConnInv, TableInv;
    assert forall n :: n in s.registry ==> TableNamed(s, s.registry[n], n);
  }

  // A lookup, and a refused CREATE, change the connection only.
  lemma LookupShows(s: State, s': State, c: Conn)
    requires Inv(s) && c in s.conns && s.conns[c].phase.WantRegistry? && s.registryOwner.None?
    requires c in s'.conns && s' == SetConn(s, c, s'.conns[c])
    requires var k, job := s.conns[c], s.conns[c].phase.job;
             && (job.CreateJob? <==> job.name in s.registry)
             && s'.conns[c] == Answered(k, FailedReply(if job.CreateJob? then DUPLICATE_TABLE else NO_SUCH_TABLE))
    ensures Shows(s', c, s.conns[c].replies, H.ServeJob(WorldOf(s), LocalOf(s, c), c, s.conns[c].phase.job))
  {
    var job := s.conns[c].phase.job;
    assert job.name in s.registry ==> TableNamed(s, s.registry[job.name], job.name);
    assert WorldOf(s') == WorldOf(s);
    assert LocalOf(s', c).locked == LocalOf(s, c).locked;
  }

  // ---- a whole request

  // How the outcome of one pass of the chat loop, and of the destructor after the last, shows.
  ghost predicate ShowsOutcome(s: State, c: Conn, replies: seq<Msg>, o: H.PassOutcome) {
    c in s.conns
    && match o
       case Continues(w, k, reply) =>
         WorldOf(s) == w && LocalOf(s, c) == k && s.conns[c].phase.Idle? && s.conns[c].replies == replies + [reply]
       case Ends(w, k, reply) =>
         && WorldOf(s) == (if k.sess.inTx then H.RollbackAll(w, k.locked) else w)
         && s.conns[c].phase.Closed? && s.conns[c].replies == replies + [reply]
       case Stuck(w, k) =>
         WorldOf(s) == w && LocalOf(s, c) == k && Blocked(s, c) && s.conns[c].replies == replies
       case Escapes(w, k) =>
         && WorldOf(s) == w && LocalOf(s, c) == k && s.conns[c].phase.Idle?
         && exists reply :: s.conns[c].replies == replies + [reply] && Encode(reply).Err?
  }

  lemma Escaped(s: State, c: Conn, replies: seq<Msg>, o: H.PassOutcome, reply: Msg)
    requires c in s.conns && o.Escapes? && WorldOf(s) == o.w && LocalOf(s, c) == o.k && s.conns[c].phase.Idle?
    requires s.conns[c].replies == replies + [reply] && Encode(reply).Err?
    ensures ShowsOutcome(s, c, replies, o)
  {
  }

  // A request served by the classes, with the other threads standing still, is a run of the
  // machine by that connection alone: same tables, same session, same locks, same reply.
  lemma SoloServe(s: State, c: Conn, line: string) returns (steps: seq<Step>)
    requires Inv(s) && c in s.conns && s.conns[c].phase.Idle? && line != [] && |line| <= MAX_LINE
    ensures SoloRun(s, steps, c)
    ensures ShowsOutcome(After(s, steps), c, s.conns[c].replies, H.ServeLine(WorldOf(s), LocalOf(s, c), c, line))
  {
    hide Dispatch, Inv, Run, After, Shows, Blocked;
    var a := Dispatch(s.conns[c].sess, line);
    RunOne(s, Arrive(c, line));
    var s1 := Apply(s, Arrive(c, line));
    StepKeepsInv(s, Arrive(c, line));
    assert WorldOf(s1) == WorldOf(s) && LocalOf(s1, c).locked == LocalOf(s, c).locked;
    var rest := SoloRest(s1, c);
    RunAppend(s, [Arrive(c, line)], rest);
    steps := [Arrive(c, line)] + rest;
    if a.Start? {
      var served := H.ServeJob(WorldOf(s1), LocalOf(s1, c), c, a.job);
      assert served == H.ServeAction(WorldOf(s), LocalOf(s, c), c, a);
    } else if a.Leave? {
      LastReplyIsGood(s.conns[c].sess, line);
    } else if a.Answer? && Encode(a.reply).Err? {
      Escaped(s1, c, s.conns[c].replies, H.ServeLine(WorldOf(s), LocalOf(s, c), c, line), a.reply);
    } else if a.Abort? && Encode(FailedReply(a.text)).Err? {
      var o := H.ServeLine(WorldOf(s), LocalOf(s, c), c, line);
      Escaped(After(s, steps), c, s.conns[c].replies, o, FailedReply(a.text));
    }
  }

  // Everything after the request has been taken: the handler, and the rollback if it fails.
  lemma SoloRest(s: State, c: Conn) returns (steps: seq<Step>)
    requires Inv(s) && c in s.conns
    requires var k := s.conns[c];
             k.phase.Idle? || k.phase.Closed? || k.phase.WantRegistry? || k.phase == Committing(k.locked, None)
             || (k.phase.RollingBack? && k.phase.left == k.locked && k.phase.at.None?)
    ensures SoloRun(s, steps, c) && c in After(s, steps).conns
    ensures var k, s' := s.conns[c], After(s, steps);
            match k.phase
            case Committing(_, _) => Shows(s', c, k.replies,
                 H.Replied(H.CommitAll(WorldOf(s), LocalOf(s, c).locked), H.AfterTx(LocalOf(s, c)), OK_REPLY))
            case RollingBack(_, _, answer) =>
              && WorldOf(s') == H.RollbackAll(WorldOf(s), LocalOf(s, c).locked)
                 && LocalOf(s', c) == H.AfterTx(LocalOf(s, c))
              && (if answer.Some? then s'.conns[c].phase.Idle? && s'.conns[c].replies == k.replies + [answer.value]
                  else s'.conns[c].phase.Closed? && s'.conns[c].replies == k.replies)
            case WantRegistry(job) => ShowsOutcome(s', c, k.replies,
                 H.Catch(H.ServeJob(WorldOf(s), LocalOf(s, c), c, job)))
            case _ => s' == s
  {
    var k := s.conns[c];
    if k.phase.Committing? {
      steps := SoloCommit(s, c);
    } else if k.phase.RollingBack? {
      steps := SoloAbort(s, c);
    } else if k.phase.WantRegistry? {
      steps := SoloJob(s, c);
      var s1 := After(s, steps);
      RunKeepsInv(s, steps);
      if s1.conns[c].phase.RollingBack? {
        var rest := SoloAbort(s1, c);
        RunAppend(s, steps, rest);
        steps := steps + rest;
      }
    } else {
      steps := [];
    }
  }

  // End of input, with the other threads standing still: the destructor's rollback, and no reply.
  lemma SoloHangUp(s: State, c: Conn) returns (steps: seq<Step>)
    requires Inv(s) && c in s.conns && s.conns[c].phase.Idle?
    ensures SoloRun(s, steps, c) && c in After(s, steps).conns
    ensures var s' := After(s, steps);
            && WorldOf(s') == H.Destroyed(H.ChatResult(WorldOf(s), LocalOf(s, c), [], H.Finished))
            && s'.conns[c].phase.Closed? && s'.conns[c].replies == s.conns[c].replies
  {
    RunOne(s, Arrive(c, []));
    var s1 := Apply(s, Arrive(c, []));
    StepKeepsInv(s, Arrive(c, []));
    var rest := SoloRest(s1, c);
    RunAppend(s, [Arrive(c, [])], rest);
    steps := [Arrive(c, [])] + rest;
  }
}
