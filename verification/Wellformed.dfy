/** Every value the server stores can be sent back, and every request gets one reply. */
module Wellformed {
  import opened Wrappers
  import opened Text
  import opened Messages
  import opened Serialization
  import opened Lines
  import opened Sessions
  import opened Tables
  import opened Protocol

  // Longest table name for which the lock-failure reply fits in one line.
  const MAX_NAME: nat := 983

  // A reply the client can read back; only the lock failure on a table with a long name is not.
  predicate SoundReply(r: Msg, names: set<string>) {
    GoodReply(r) || LongLockFailure(r, names)
  }

  // The failure to lock the table of one of the names, over 983 characters long.
  predicate LongLockFailure(r: Msg, names: set<string>) {
    && r.kind.FAILED? && |r.args| == 1 && |r.args[0]| >= |LOCK_FAILED|
    && r.args[0][..|LOCK_FAILED|] == LOCK_FAILED
    && var name := r.args[0][|LOCK_FAILED|..];
    name in names && IsIdentifier(name) && |name| > MAX_NAME
  }

  // The reply to a failed trylock fits in one line exactly when the name has at most 983
  // characters, and can be encoded at all exactly when it has at most 984.
  lemma LockFailureFits(name: string)
    requires IsIdentifier(name)
    ensures GoodReply(FailedReply(LOCK_FAILED + name)) <==> |name| <= MAX_NAME
    ensures Encode(FailedReply(LOCK_FAILED + name)).Ok? <==> |name| <= MAX_NAME + 1
    ensures forall names: set<string> :: name in names ==> SoundReply(FailedReply(LOCK_FAILED + name), names)
  {
    var r := FailedReply(LOCK_FAILED + name);
    OneArgText(r);
    IdentifierIsValue(name);
    assert |LOCK_FAILED| == 32 && PlainText(LOCK_FAILED);
    assert r.args[0][..|LOCK_FAILED|] == LOCK_FAILED && r.args[0][|LOCK_FAILED|..] == name;
  }

  lemma GetLine(name: string)
    requires IsIdentifier(name) && |name| <= 1016
    ensures var m := Msg(GET, [name, "k"]);
            m.Valid() && |LineText(m)| <= MAX_LINE && LineText(m) != [] && Decode(CString(LineText(m))) == Ok(m)
  {
    var m := Msg(GET, [name, "k"]);
    assert ArgsText(m.args[1..][1..]) == [];
    assert ArgsText(m.args[1..]) == " k";
    assert LineText(m) == "GET" + ([' '] + name + " k") + ['\n'];
    assert IsIdentifier("k");
    IdentifierIsValue(name);
    EncodedLine(m);
    CStringWithoutNul(LineText(m));
    DecodeUndoesEncode(m);
  }

  // A concrete request the server accepts whose lock failure it cannot report: 985 letters.
  lemma LockFailureCanOverflow()
    ensures var name := seq(985, _ => 'a');
            var line := LineText(Msg(GET, [name, "k"]));
            && |line| <= MAX_LINE
            && Decode(CString(line)) == Ok(Msg(GET, [name, "k"]))
            && Encode(FailedReply(LOCK_FAILED + name)).Err?
  {
    var name := seq(985, _ => 'a');
    GetLine(name);
    LockFailureFits(name);
  }

  // ---- the invariant

  predicate GoodContent(m: Content) {
    forall key :: key in m ==> GoodValue(m[key])
  }

  predicate GoodTable(e: TableState) {
    GoodContent(e.committed) && GoodContent(e.pending)
  }

  predicate GoodPhase(phase: Phase, names: set<string>) {
    match phase
    case WantRegistry(job) => GoodJob(job)
    case HoldRegistry(job) => GoodJob(job)
    case LeaveRegistry(job, outcome) => GoodJob(job) && (outcome.Found? ==> job.name in names)
    case AtTable(job, _) => GoodJob(job) && job.name in names
    case InTable(job, _) => GoodJob(job)
    case WantTable(job, _) => GoodJob(job)
    case HoldTable(job, _) => GoodJob(job)
    case FlushTable(job, _) => GoodJob(job)
    case LeaveTable(_, reply) => SoundReply(reply, names) && !reply.kind.ERROR?
    case RollingBack(_, _, answer) => answer.Some? ==> SoundReply(answer.value, names) && !answer.value.kind.ERROR?
    case _ => true
  }

  // The last reply has been given: nothing follows.
  predicate Ending(phase: Phase) {
    phase.Closed? || (phase.RollingBack? && phase.answer.None?)
  }

  // A request is waiting for its reply.
  predicate Owes(phase: Phase) {
    !phase.Idle? && !Ending(phase)
  }

  // One reply for each request but the one in hand, and an ERROR only as the last.
  predicate GoodReplies(k: Connection, names: set<string>) {
    && |k.replies| + (if Owes(k.phase) then 1 else 0) == k.requests
    && (forall i :: 0 <= i < |k.replies| ==> SoundReply(k.replies[i], names))
    && (forall i :: 0 <= i < |k.replies| && k.replies[i].kind.ERROR? ==> i == |k.replies| - 1 && Ending(k.phase))
  }

  predicate GoodConn(k: Connection, names: set<string>) {
    GoodStack(k.sess.stack) && GoodPhase(k.phase, names) && GoodReplies(k, names)
  }

  // More names do no harm.
  lemma GoodConnGrows(k: Connection, names: set<string>, more: set<string>)
    requires GoodConn(k, names) && names <= more
    ensures GoodConn(k, more)
  {
    hide GoodReply;
  }

  ghost predicate WellInv(s: State) {
    && (forall c {:trigger GoodConn(s.conns[c], s.registry.Keys)} :: c in s.conns ==>
          GoodConn(s.conns[c], s.registry.Keys))
    && (forall t {:trigger GoodTable(s.tables[t])} :: t in s.tables ==> GoodTable(s.tables[t]))
  }

  lemma RegistryTextsArePlain()
    ensures PlainText(DUPLICATE_TABLE) && PlainText(NO_SUCH_TABLE)
  {
  }

  lemma TableTextsArePlain()
    ensures PlainText(DUPLICATE_TABLE) && PlainText(NO_SUCH_TABLE) && PlainText(NO_SUCH_KEY)
  {
    RegistryTextsArePlain();
    hide PlainText;
    KeyTextIsPlain();
  }

  lemma KeyTextIsPlain()
    ensures PlainText(NO_SUCH_KEY)
  {
  }

  lemma FixedRepliesAreGood()
    ensures GoodReply(OK_REPLY) && GoodReply(FailedReply(DUPLICATE_TABLE))
    ensures GoodReply(FailedReply(NO_SUCH_TABLE)) && GoodReply(FailedReply(NO_SUCH_KEY))
    ensures GoodReply(FailedReply(NESTED_TRANSACTION))
  {
    OkReplyIsGood();
    SessionTextsArePlain();
    TableTextsArePlain();
    ReplyOfText(FAILED, DUPLICATE_TABLE);
    ReplyOfText(FAILED, NO_SUCH_TABLE);
    ReplyOfText(FAILED, NO_SUCH_KEY);
    ReplyOfText(FAILED, NESTED_TRANSACTION);
  }

  lemma ReceiveKeepsGood(k: Connection, names: set<string>, line: string)
    requires GoodConn(k, names) && k.phase.Idle? && |line| <= MAX_LINE
    ensures GoodConn(Receive(k, line), names)
  {
    hide Decode, Handle;
    if line != [] {
      DispatchKeepsGood(k.sess, line);
      AbortTextIsNested(k.sess, line);
      FixedRepliesAreGood();
      ActKeepsGood(k.(requests := k.requests + 1), names, Dispatch(k.sess, line));
    }
  }

  lemma AbortTextIsNested(sess: Session, line: string)
    ensures Dispatch(sess, line).Abort? ==> Dispatch(sess, line).text == NESTED_TRANSACTION
  {
  }

  lemma ActKeepsGood(k: Connection, names: set<string>, a: Action)
    requires GoodStack(k.sess.stack) && k.phase.Idle?
    requires GoodReplies(k.(requests := |k.replies|), names) && k.requests == |k.replies| + 1
    requires GoodAction(a) && (a.Abort? ==> GoodReply(FailedReply(a.text)))
    ensures GoodConn(Act(k, a), names)
  {
  }

  lemma LeavingKeepsGood(k: Connection, names: set<string>)
    requires GoodConn(k, names) && k.phase.LeaveRegistry?
    ensures GoodConn(Leaving(k, k.phase.job, k.phase.outcome), names)
  {
    hide GoodReply, LongLockFailure;
    FixedRepliesAreGood();
  }

  lemma TryTableKeepsGood(s: State, c: Conn)
    requires WellInv(s) && Enabled(s, TryTable(c))
    ensures GoodConn(ApplyTryTable(s, c).conns[c], s.registry.Keys)
  {
    assert GoodConn(s.conns[c], s.registry.Keys);
    LockFailureFits(s.conns[c].phase.job.name);
  }

  lemma AccessKeepsGood(s: State, step: Step)
    requires WellInv(s) && Enabled(s, step) && (step.Access? || step.AutoAccess?)
    ensures GoodConn(Apply(s, step).conns[step.c], s.registry.Keys)
  {
    hide GoodReply, LongLockFailure;
    var k := s.conns[step.c];
    assert GoodConn(k, s.registry.Keys);
    FixedRepliesAreGood();
    VisibleIsGood(s, k.phase.t, k.phase.job.key);
  }

  lemma ReleaseKeepsGood(s: State, step: Step)
    requires WellInv(s) && Enabled(s, step)
    requires step.AutoFlush? || step.DropTable? || step.CommitOne? || step.CommitUnlock? || step.CommitDone?
          || step.AbortOne? || step.AbortUnlock? || step.AbortDone?
    ensures GoodConn(Apply(s, step).conns[step.c], s.registry.Keys)
  {
    assert GoodConn(s.conns[step.c], s.registry.Keys);
    OkReplyIsGood();
  }

  lemma ConnKeepsGood(s: State, step: Step)
    requires WellInv(s) && Enabled(s, step)
    ensures step.c in Apply(s, step).conns && GoodConn(Apply(s, step).conns[step.c], s.registry.Keys)
  {
    hide Receive;
    if !step.Connect? {
      assert GoodConn(s.conns[step.c], s.registry.Keys);
      match step
      case Arrive(c, line) => ReceiveKeepsGood(s.conns[c], s.registry.Keys, line);
      case TakeRegistry(_) =>
      case UseRegistry(_, _) =>
      case DropRegistry(c) => LeavingKeepsGood(s.conns[c], s.registry.Keys);
      case TryTable(c) => TryTableKeepsGood(s, c);
      case Access(_) => AccessKeepsGood(s, step);
      case TakeTable(_) =>
      case AutoAccess(_) => AccessKeepsGood(s, step);
      case _ => ReleaseKeepsGood(s, step);
    }
  }

  lemma VisibleIsGood(s: State, t: TableId, key: string)
    requires WellInv(s) && t in s.tables
    ensures Visible(s.tables[t], key).Some? ==> GoodValue(Visible(s.tables[t], key).value)
  {
    assert GoodTable(s.tables[t]);
  }

  lemma TablesKeepGood(s: State, step: Step, t: TableId)
    requires WellInv(s) && Enabled(s, step) && t in Apply(s, step).tables
    ensures GoodTable(Apply(s, step).tables[t])
  {
    if t in s.tables {
      assert GoodTable(s.tables[t]);
    }
    if !step.Connect? {
      assert GoodConn(s.conns[step.c], s.registry.Keys);
    }
  }

  lemma StepKeepsWell(s: State, step: Step)
    requires WellInv(s) && Enabled(s, step)
    ensures WellInv(Apply(s, step))
  {
    var s' := Apply(s, step);
    ConnKeepsGood(s, step);
    forall d | d in s'.conns
      ensures GoodConn(s'.conns[d], s'.registry.Keys)
    {
      if d != step.c {
        assert s'.conns[d] == s.conns[d];
        assert GoodConn(s.conns[d], s.registry.Keys);
      }
      GoodConnGrows(s'.conns[d], s.registry.Keys, s'.registry.Keys);
    }
    forall t | t in s'.tables
      ensures GoodTable(s'.tables[t])
    {
      TablesKeepGood(s, step, t);
    }
  }

  lemma {:induction false} RunKeepsWell(s: State, steps: seq<Step>)
    requires WellInv(s) && Run(s, steps)
    ensures WellInv(After(s, steps))
    decreases |steps|
  {
    if steps != [] {
      StepKeepsWell(s, steps[0]);
      RunKeepsWell(Apply(s, steps[0]), steps[1..]);
    }
  }

  // In every reachable state every value on a stack, pending or committed is a legal value of at
  // most 1017 characters, every connection has given one reply to each finished request, and each
  // reply can be read back in one line, a failure to lock a registered table with a name over 983
  // characters aside.
  lemma ReachableWell(s: State)
    requires Reachable(s)
    ensures WellInv(s)
  {
    var steps :| Run(INIT, steps) && After(INIT, steps) == s;
    RunKeepsWell(INIT, steps);
  }

  // While no table's name is longer than 983 characters every reply ever given can be read back in
  // one line; while none is longer than 984 every reply can at least be encoded.
  lemma ShortNamesFit(s: State, c: Conn, i: nat)
    requires Reachable(s) && c in s.conns && i < |s.conns[c].replies|
    ensures (forall n :: n in s.registry ==> |n| <= MAX_NAME) ==> GoodReply(s.conns[c].replies[i])
    ensures (forall n :: n in s.registry ==> |n| <= MAX_NAME + 1) ==> Encode(s.conns[c].replies[i]).Ok?
  {
    hide GoodStack, GoodPhase;
    var r := s.conns[c].replies[i];
    ReachableWell(s);
    assert GoodConn(s.conns[c], s.registry.Keys);
    if !GoodReply(r) {
      var name := r.args[0][|LOCK_FAILED|..];
      LockFailureFits(name);
      assert r.args[0] == LOCK_FAILED + name;
      assert r == FailedReply(LOCK_FAILED + name);
    }
  }

  // So TOP always works: the reply carries the top of the stack, and the client reads it back.
  lemma TopIsAnswered(s: State, c: Conn)
    requires WellInv(s) && c in s.conns && s.conns[c].phase.Idle?
    requires s.conns[c].sess.loggedIn && s.conns[c].sess.stack != []
    ensures var k := s.conns[c];
            var data := Msg(DATA, [Last(k.sess.stack)]);
            && Receive(k, "TOP\n").replies == k.replies + [data]
            && Receive(k, "TOP\n").sess == k.sess && Receive(k, "TOP\n").phase.Idle?
            && |LineText(data)| <= MAX_LINE
            && Decode(CString(LineText(data))) == Ok(data)
  {
    var k := s.conns[c];
    assert GoodConn(k, s.registry.Keys);
    TopLineDecodes();
    DataReply(Last(k.sess.stack));
    EncodedLine(Msg(DATA, [Last(k.sess.stack)]));
    CStringWithoutNul(LineText(Msg(DATA, [Last(k.sess.stack)])));
  }

  lemma TopLineDecodes()
    ensures Decode(CString("TOP\n")) == Ok(Msg(TOP, []))
  {
    assert LineText(Msg(TOP, [])) == "TOP\n" by {
      assert ArgsText([]) == [];
    }
    DecodeUndoesEncode(Msg(TOP, []));
    CStringWithoutNul("TOP\n");
  }
}
