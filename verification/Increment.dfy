/** incr_value -t as a client program, and why no increment is lost (incr_value.cpp). */
module Increment {
  import opened Wrappers
  import opened Text
  import opened Integers
  import opened Messages
  import opened Serialization
  import opened Lines
  import opened ValueStacks
  import opened Sessions
  import opened Tables
  import opened Protocol
  import opened Ownership
  import opened Serializability

  // Which connections run the program, with their user names, and the key they all increment.
  datatype Clients = Clients(users: map<Conn, string>, table: string, key: string) {
    predicate Valid() {
      && IsIdentifier(table) && IsIdentifier(key)
      && forall c :: c in users ==> IsIdentifier(users[c])
    }
  }

  // The requests of one run, in order.
  function Script(x: Clients, user: string, i: nat): Msg
    requires i < 8
  {
    match i
    case 0 => Msg(LOGIN, [user])
    case 1 => Msg(BEGIN, [])
    case 2 => Msg(GET, [x.table, x.key])
    case 3 => Msg(PUSH, ["1"])
    case 4 => Msg(ADD, [])
    case 5 => Msg(SET, [x.table, x.key])
    case 6 => Msg(COMMIT, [])
    case _ => Msg(BYE, [])
  }

  predicate AllOk(k: Connection) {
    forall i :: 0 <= i < |k.replies| ==> k.replies[i].kind.OK?
  }

  // What the client may send: nothing, as it hangs up; or, while every reply has been OK, its next
  // request, whole or cut short.
  predicate ClientSends(x: Clients, user: string, k: Connection, line: string) {
    line == [] || (AllOk(k) && k.requests < 8 && line <= LineText(Script(x, user, k.requests)))
  }

  // Any other connection may send anything but a SET of the key.
  predicate OtherSends(x: Clients, line: string) {
    Decode(CString(line)) != Ok(Msg(SET, [x.table, x.key]))
  }

  predicate Allowed(x: Clients, s: State, step: Step)
    requires Enabled(s, step)
  {
    step.Arrive? ==>
      if step.c in x.users then ClientSends(x, x.users[step.c], s.conns[step.c], step.line)
      else OtherSends(x, step.line)
  }

  ghost predicate AllowedRun(x: Clients, s: State, steps: seq<Step>)
    requires Run(s, steps)
    decreases |steps|
  {
    steps == [] || (Allowed(x, s, steps[0]) && AllowedRun(x, Apply(s, steps[0]), steps[1..]))
  }

  // How many runs of the program have begun their COMMIT.
  function Increments(x: Clients, history: seq<Item>): nat {
    if history == [] then 0 else
      var item := history[|history| - 1];
      Increments(x, history[..|history| - 1]) + if item.Committed? && item.conn in x.users then 1 else 0
  }

  lemma IncrementsAppend(x: Clients, history: seq<Item>, item: Item)
    ensures Increments(x, history + [item])
         == Increments(x, history) + if item.Committed? && item.conn in x.users then 1 else 0
  {
    assert (history + [item])[..|history|] == history;
  }

  // ---- where a client stands

  // The text ADD leaves for the fetched text v and "1".
  function Next(v: string): string
    requires Stoi(v).Number?
  {
    ToString(Wrap32(Stoi(v).n + 1))
  }

  predicate Fetched1(x: Clients, log: seq<Event>) {
    |log| == 1 && log[0].Got? && log[0].table == x.table && log[0].key == x.key && log[0].result.Some?
  }

  predicate Stored(x: Clients, log: seq<Event>) {
    |log| == 2 && Fetched1(x, log[..1])
    && Stoi(log[0].result.value).Number?
    && log[1] == Put(x.table, x.key, Next(log[0].result.value))
  }

  // Between two requests, r of them answered with OK.
  predicate IdleAt(x: Clients, k: Connection, r: nat) {
    var stack, log := k.sess.stack, k.log;
    match r
    case 0 => !k.sess.loggedIn && !k.sess.inTx && stack == [] && log == []
    case 1 => k.sess.loggedIn && !k.sess.inTx && stack == [] && log == []
    case 2 => k.sess.loggedIn && k.sess.inTx && stack == [] && log == []
    case 3 => k.sess.loggedIn && k.sess.inTx && Fetched1(x, log) && stack == [log[0].result.value]
    case 4 => k.sess.loggedIn && k.sess.inTx && Fetched1(x, log) && stack == [log[0].result.value, "1"]
    case 5 => k.sess.loggedIn && k.sess.inTx && Fetched1(x, log) && Stoi(log[0].result.value).Number?
         && stack == [Next(log[0].result.value)]
    case 6 => k.sess.loggedIn && k.sess.inTx && Stored(x, log)
    case 7 => k.sess.loggedIn && !k.sess.inTx && log == []
    case _ => false
  }

  // On the way to the table, for the GET or for the SET.
  predicate AtWork(x: Clients, k: Connection, job: Job) {
    && k.sess.loggedIn && k.sess.inTx && k.sess.stack == []
    && ((k.requests == 3 && job == GetJob(x.table, x.key) && k.log == [])
        || (k.requests == 6 && Fetched1(x, k.log) && Stoi(k.log[0].result.value).Number?
            && job == SetJob(x.table, x.key, Next(k.log[0].result.value))))
  }

  predicate ClientOk(x: Clients, k: Connection) {
    match k.phase
    case Closed => true
    case RollingBack(_, _, answer) => answer.Some? ==> answer.value.kind.FAILED?
    case Idle => AllOk(k) ==> |k.replies| == k.requests && IdleAt(x, k, k.requests)
    case WantRegistry(job) => Waiting(k) && AtWork(x, k, job)
    case HoldRegistry(job) => Waiting(k) && AtWork(x, k, job)
    case LeaveRegistry(job, _) => Waiting(k) && AtWork(x, k, job)
    case AtTable(job, _) => Waiting(k) && AtWork(x, k, job)
    case InTable(job, _) => Waiting(k) && AtWork(x, k, job)
    case Committing(_, _) => Waiting(k) && k.requests == 7 && k.sess.loggedIn && Stored(x, k.log)
    case _ => false
  }

  predicate Waiting(k: Connection) {
    AllOk(k) && |k.replies| + 1 == k.requests
  }

  // ---- what a client's request does

  lemma ScriptLineDecodes(x: Clients, user: string, i: nat)
    requires x.Valid() && IsIdentifier(user) && i < 8 && |LineText(Script(x, user, i))| <= MAX_LINE
    ensures Decode(CString(LineText(Script(x, user, i)))) == Ok(Script(x, user, i))
  {
    var m := Script(x, user, i);
    IdentifierIsValue(user);
    IdentifierIsValue(x.table);
    IdentifierIsValue(x.key);
    EncodedLine(m);
    CStringWithoutNul(LineText(m));
    DecodeUndoesEncode(m);
  }

  lemma CutLineFails(x: Clients, user: string, i: nat, line: string)
    requires x.Valid() && IsIdentifier(user) && i < 8 && line != []
    requires line <= LineText(Script(x, user, i)) && line != LineText(Script(x, user, i))
    ensures Decode(CString(line)).Err?
  {
    var m := Script(x, user, i);
    IdentifierIsValue(user);
    IdentifierIsValue(x.table);
    IdentifierIsValue(x.key);
    EncodedLine(m);
    var s := LineText(m);
    assert line == s[..|line|] && line[|line| - 1] == s[..|s| - 1][|line| - 1];
    CStringWithoutNul(line);
  }

  // A line that does not decode ends the session: it is rolled back.
  lemma ErrorEndsSession(x: Clients, k: Connection, line: string)
    requires k.phase.Idle? && (line == [] || Decode(CString(line)).Err?)
    ensures ClientOk(x, Receive(k, line)) && !Receive(k, line).phase.Committing?
  {
  }

  lemma OneParses()
    ensures Stoi("1") == Number(1)
  {
    StoiUndoesToString(1);
    assert ToString(1) == "1";
  }

  lemma AddOne(v: string, stack: seq<string>)
    requires stack == [v, "1"]
    ensures Stoi(v).Number? ==> Arithmetic(Add, stack) == ([Next(v)], None)
    ensures !Stoi(v).Number? ==> Arithmetic(Add, stack).1.Some?
  {
    OneParses();
    hide Stoi, ToString;
    assert stack[..0] == [];
    if Stoi(v).Number? {
      assert Operate(Add, v, "1") == Ok(Next(v));
      assert [] + [Next(v)] == [Next(v)];
    }
  }

  lemma FailureShows(k: Connection, reply: Msg)
    requires !reply.kind.OK?
    ensures !AllOk(Answered(k, reply))
  {
    assert Answered(k, reply).replies[|k.replies|] == reply;
  }

  // The action of the r-th request, and the connection after it.
  lemma ScriptAction(x: Clients, user: string, k: Connection)
    requires x.Valid() && IsIdentifier(user)
    requires k.phase.Idle? && AllOk(k) && k.requests < 8 && IdleAt(x, k, k.requests) && |k.replies| == k.requests
    ensures Script(x, user, k.requests).Valid()
    ensures ClientOk(x, Act(k.(requests := k.requests + 1), Handle(k.sess, Script(x, user, k.requests))))
    ensures Handle(k.sess, Script(x, user, k.requests)).Commit? ==> Stored(x, k.log)
  {
    if k.requests == 4 {
      AddKeepsClient(x, k);
    }
  }

  lemma AddKeepsClient(x: Clients, k: Connection)
    requires k.phase.Idle? && AllOk(k) && k.requests == 4 && IdleAt(x, k, 4) && |k.replies| == 4
    ensures ClientOk(x, Act(k.(requests := 5), ArithAction(k.sess, Add)))
  {
    hide Stoi, ToString, Arithmetic;
    AddOne(k.log[0].result.value, k.sess.stack);
    var (stack, error) := Arithmetic(Add, k.sess.stack);
    if error.Some? {
      FailureShows(k.(sess := k.sess.(stack := stack), requests := 5), FailedReply(error.value));
    }
  }

  lemma ReceiveDecoded(k: Connection, line: string, m: Msg)
    requires line != [] && Decode(CString(line)) == Ok(m) && m.Valid()
    ensures Receive(k, line) == Act(k.(requests := k.requests + 1), Handle(k.sess, m))
    ensures Receive(k, line).phase.Committing? && k.phase.Idle? ==> Handle(k.sess, m).Commit?
  {
    hide Handle, Decode;
  }

  lemma ClientReceives(x: Clients, user: string, k: Connection, line: string)
    requires x.Valid() && IsIdentifier(user) && k.phase.Idle? && ClientOk(x, k)
    requires ClientSends(x, user, k, line) && |line| <= MAX_LINE
    ensures ClientOk(x, Receive(k, line))
    ensures Receive(k, line).phase.Committing? ==> Stored(x, k.log)
  {
    hide Decode, Handle, Receive, Act;
    if line == [] {
      ErrorEndsSession(x, k, line);
    } else {
      var whole := LineText(Script(x, user, k.requests));
      if line == whole {
        ScriptLineDecodes(x, user, k.requests);
        ScriptAction(x, user, k);
        ReceiveDecoded(k, line, Script(x, user, k.requests));
      } else {
        CutLineFails(x, user, k.requests, line);
        ErrorEndsSession(x, k, line);
      }
    }
  }

  lemma ClientAccesses(x: Clients, s: State, c: Conn)
    requires Inv(s) && Enabled(s, Access(c)) && ClientOk(x, s.conns[c])
    ensures ClientOk(x, ApplyAccess(s, c).conns[c])
  {
    var k, k' := s.conns[c], ApplyAccess(s, c).conns[c];
    if k.phase.job.SetJob? {
      assert k'.log[..1] == k.log;
    } else if !k'.replies[|k.replies|].kind.OK? {
      assert !AllOk(k');
    }
  }

  lemma ClientLocks(x: Clients, s: State, step: Step)
    requires Inv(s) && Enabled(s, step) && step.c in s.conns && ClientOk(x, s.conns[step.c])
    requires step.TakeRegistry? || step.UseRegistry? || step.DropRegistry? || step.TryTable?
    ensures ClientOk(x, Apply(s, step).conns[step.c])
  {
    hide Receive, TableInv;
    var k, k' := s.conns[step.c], Apply(s, step).conns[step.c];
    assert ConnInv(s, step.c);
    if |k'.replies| > |k.replies| && !k'.replies[|k.replies|].kind.OK? {
      assert !AllOk(k');
    }
  }

  lemma ClientReleases(x: Clients, s: State, step: Step)
    requires Inv(s) && Enabled(s, step) && step.c in s.conns && ClientOk(x, s.conns[step.c])
    requires !step.Connect? && !step.Arrive? && !step.Access?
    requires !step.TakeRegistry? && !step.UseRegistry? && !step.DropRegistry? && !step.TryTable?
    ensures ClientOk(x, Apply(s, step).conns[step.c])
  {
    hide Receive, ConnInv, TableInv, AtWork;
    var k, k' := s.conns[step.c], Apply(s, step).conns[step.c];
    if |k'.replies| > |k.replies| && !k'.replies[|k.replies|].kind.OK? {
      assert !AllOk(k');
    }
  }

  lemma ClientWorks(x: Clients, s: State, step: Step)
    requires Inv(s) && Enabled(s, step) && !step.Arrive? && (!step.Connect? ==> ClientOk(x, s.conns[step.c]))
    ensures ClientOk(x, Apply(s, step).conns[step.c])
  {
    if !step.Connect? {
      EnabledConn(s, step);
      hide Inv, Apply, Enabled, ClientOk;
      if step.Access? {
        ClientAccesses(x, s, step.c);
      } else if step.TakeRegistry? || step.UseRegistry? || step.DropRegistry? || step.TryTable? {
        ClientLocks(x, s, step);
      } else {
        ClientReleases(x, s, step);
      }
    }
  }

  // ---- the other connections

  predicate NotOurs(x: Clients, job: Job) {
    job.SetJob? ==> job.name != x.table || job.key != x.key
  }

  predicate OtherOk(x: Clients, k: Connection) {
    && (forall i :: 0 <= i < |k.log| && k.log[i].Put? ==> k.log[i].table != x.table || k.log[i].key != x.key)
    && match k.phase
       case WantRegistry(job) => NotOurs(x, job)
       case HoldRegistry(job) => NotOurs(x, job)
       case LeaveRegistry(job, _) => NotOurs(x, job)
       case AtTable(job, _) => NotOurs(x, job)
       case InTable(job, _) => NotOurs(x, job)
       case WantTable(job, _) => NotOurs(x, job)
       case HoldTable(job, _) => NotOurs(x, job)
       case FlushTable(job, _) => NotOurs(x, job)
       case _ => true
  }

  lemma OtherReceives(x: Clients, k: Connection, line: string)
    requires k.phase.Idle? && OtherOk(x, k) && OtherSends(x, line)
    ensures OtherOk(x, Receive(k, line))
  {
    if line != [] {
      StartOfSet(k.sess, line);
    }
  }

  lemma StartOfSet(sess: Session, line: string)
    ensures var a := Dispatch(sess, line);
            a.Start? && a.job.SetJob? ==> Decode(CString(line)) == Ok(Msg(SET, [a.job.name, a.job.key]))
  {
    match Decode(CString(line))
    case Ok(m) => SetJobOfSet(sess, m);
    case Err(_) =>
  }

  lemma SetJobOfSet(sess: Session, m: Msg)
    requires m.Valid()
    ensures var a := Handle(sess, m);
            a.Start? && a.job.SetJob? ==> m == Msg(SET, [a.job.name, a.job.key])
  {
    if m.kind.SET? {
      assert m.args == [m.args[0], m.args[1]];
    }
  }

  lemma OtherWorks(x: Clients, s: State, step: Step)
    requires Enabled(s, step) && !step.Arrive? && (!step.Connect? ==> OtherOk(x, s.conns[step.c]))
    ensures OtherOk(x, Apply(s, step).conns[step.c])
  {
  }

  lemma {:induction false} NoOwnWrites(x: Clients, log: seq<Event>)
    requires forall i :: 0 <= i < |log| && log[i].Put? ==> log[i].table != x.table || log[i].key != x.key
    ensures x.key !in Writes(log, x.table)
  {
    if log != [] {
      NoOwnWrites(x, log[..|log| - 1]);
    }
  }

  // ---- the value of the key

  ghost predicate ConnOk(x: Clients, c: Conn, k: Connection) {
    if c in x.users then ClientOk(x, k) else OtherOk(x, k)
  }

  ghost predicate KeyIs(x: Clients, db: Db, n: int) {
    x.table in db && x.key in db[x.table] && db[x.table][x.key] == ToString(Wrap32(n))
  }

  ghost predicate IncInv(x: Clients, s: State, base: int) {
    && Inv(s) && SerialInv(s)
    && (forall c {:trigger ConnOk(x, c, s.conns[c])} :: c in s.conns ==> ConnOk(x, c, s.conns[c]))
    && KeyIs(x, AbstractDb(s), base + Increments(x, s.history))
  }

  // The log of a client that commits adds one to what the database holds.
  lemma CommitAddsOne(x: Clients, db: Db, log: seq<Event>, n: int)
    requires KeyIs(x, db, n) && Stored(x, log) && Exec(db, log).Some?
    ensures KeyIs(x, Overlay(db, log), n + 1)
  {
    var v := log[0].result.value;
    assert Exec(db, log[..1]).Some? by {
      assert log[..|log| - 1] == log[..1];
    }
    assert log[..1] == [log[0]];
    ExecOne(db, log[0]);
    assert v == ToString(Wrap32(n));
    StoiUndoesToString(Wrap32(n));
    WrapSuccessor(n);
    WritesAppend(log[..1], log[1], x.table);
    assert log[..1] + [log[1]] == log;
  }

  // A COMMIT that begins counts if it is a client's, and leaves the key alone otherwise.
  lemma CommitKeepsKey(x: Clients, s: State, c: Conn, base: int)
    requires IncInv(x, s, base) && c in s.conns && s.conns[c].phase.Idle? && s.conns[c].sess.inTx
    requires if c in x.users then Stored(x, s.conns[c].log) else OtherOk(x, s.conns[c])
    ensures KeyIs(x, Overlay(AbstractDb(s), s.conns[c].log),
                  base + Increments(x, s.history + [Committed(c, s.conns[c].log)]))
  {
    hide AbstractDb, Serial, Increments, ClientOk, RegistryInv, Exec;
    var k := s.conns[c];
    IncrementsAppend(x, s.history, Committed(c, k.log));
    if c in x.users {
      assert Repeatable(s, c);
      CommitAddsOne(x, AbstractDb(s), k.log, base + Increments(x, s.history));
    } else {
      NoOwnWrites(x, k.log);
    }
  }

  lemma ArriveKeepsKey(x: Clients, s: State, c: Conn, line: string, base: int)
    requires x.Valid() && IncInv(x, s, base) && Enabled(s, Arrive(c, line)) && Allowed(x, s, Arrive(c, line))
    ensures KeyIs(x, DbEffect(s, Arrive(c, line)), base + Increments(x, ApplyArrive(s, c, line).history))
    ensures ConnOk(x, c, ApplyArrive(s, c, line).conns[c])
  {
    hide Receive, Decode, ClientOk, Increments, AbstractDb, Serial;
    var k := s.conns[c];
    assert ConnOk(x, c, k);
    if c in x.users {
      ClientReceives(x, x.users[c], k, line);
    } else {
      OtherReceives(x, k, line);
    }
    if Receive(k, line).phase.Committing? {
      assert ConnInv(s, c);
      ReceiveShape(k, line);
      CommitOnlyInTx(k, line);
      CommitKeepsKey(x, s, c, base);
    }
  }

  lemma StepKeepsInc(x: Clients, s: State, step: Step, base: int)
    requires x.Valid() && IncInv(x, s, base) && Enabled(s, step) && Allowed(x, s, step)
    ensures IncInv(x, Apply(s, step), base)
  {
    hide Apply, Enabled, AbstractDb, Serial, Increments, RegistryInv;
    StepKeepsInv(s, step);
    StepKeepsSerial(s, step);
    StepKeepsKey(x, s, step, base);
    OthersStayOk(x, s, step);
  }

  lemma OthersStayOk(x: Clients, s: State, step: Step)
    requires Enabled(s, step)
    requires forall c {:trigger ConnOk(x, c, s.conns[c])} :: c in s.conns ==> ConnOk(x, c, s.conns[c])
    requires step.c in Apply(s, step).conns && ConnOk(x, step.c, Apply(s, step).conns[step.c])
    ensures var s' := Apply(s, step);
            forall c {:trigger ConnOk(x, c, s'.conns[c])} :: c in s'.conns ==> ConnOk(x, c, s'.conns[c])
  {
    hide ConnOk, Receive;
    var s' := Apply(s, step);
    forall d | d in s'.conns
      ensures ConnOk(x, d, s'.conns[d])
    {
      if d != step.c {
        assert s'.conns[d] == s.conns[d];
        assert ConnOk(x, d, s.conns[d]);
      }
    }
  }

  lemma StepKeepsKey(x: Clients, s: State, step: Step, base: int)
    requires x.Valid() && IncInv(x, s, base) && Enabled(s, step) && Allowed(x, s, step)
    ensures KeyIs(x, AbstractDb(Apply(s, step)), base + Increments(x, Apply(s, step).history))
    ensures step.c in Apply(s, step).conns && ConnOk(x, step.c, Apply(s, step).conns[step.c])
  {
    hide Receive, ClientOk, OtherOk, Increments, AbstractDb, Serial;
    CommitLooksAtomic(s, step);
    if step.Arrive? {
      ArriveKeepsKey(x, s, step.c, step.line, base);
    } else {
      OwnStepKeepsKey(x, s, step, base);
    }
  }

  // Without a request from its client, a step counts no increment and leaves the key alone.
  lemma OwnStepKeepsKey(x: Clients, s: State, step: Step, base: int)
    requires IncInv(x, s, base) && Enabled(s, step) && !step.Arrive?
    ensures ConnOk(x, step.c, Apply(s, step).conns[step.c])
    ensures KeyIs(x, DbEffect(s, step), base + Increments(x, Apply(s, step).history))
  {
    hide Apply, DbEffect, AbstractDb, Serial, Increments, ClientOk, OtherOk;
    var s' := Apply(s, step);
    if !step.Connect? {
      assert step.c in s.conns by {
        EnabledConn(s, step);
      }
      assert ConnOk(x, step.c, s.conns[step.c]);
    }
    if step.c in x.users {
      ClientWorks(x, s, step);
    } else {
      OtherWorks(x, s, step);
    }
    OwnStepEffect(x, s, step);
    if s'.history != s.history {
      var item := s'.history[|s.history|];
      assert s'.history == s.history + [item];
      IncrementsAppend(x, s.history, item);
    }
  }

  lemma EnabledConn(s: State, step: Step)
    requires Enabled(s, step) && !step.Connect?
    ensures step.c in s.conns
  {
  }

  lemma OwnStepEffect(x: Clients, s: State, step: Step)
    requires Enabled(s, step) && !step.Arrive?
    requires !step.Connect? ==> ConnOk(x, step.c, s.conns[step.c])
    requires x.table in AbstractDb(s) && x.key in AbstractDb(s)[x.table]
    ensures x.table in DbEffect(s, step) && x.key in DbEffect(s, step)[x.table]
    ensures DbEffect(s, step)[x.table][x.key] == AbstractDb(s)[x.table][x.key]
    ensures var h := Apply(s, step).history;
            h == s.history || (|h| == |s.history| + 1 && h[..|s.history|] == s.history
                               && (h[|s.history|].Committed? ==> h[|s.history|].conn !in x.users))
  {
    hide AbstractDb;
  }

  // Any number of clients increment one key while other connections do anything but SET it; any of
  // them may fail, hang up or be cut short at any point. In every state of every interleaving the
  // key's value is its initial value plus the number of runs whose COMMIT has begun.
  lemma {:induction false} NoLostUpdate(x: Clients, s: State, steps: seq<Step>, base: int)
    requires x.Valid() && IncInv(x, s, base) && Run(s, steps) && AllowedRun(x, s, steps)
    ensures IncInv(x, After(s, steps), base)
    decreases |steps|
  {
    if steps != [] {
      StepKeepsInc(x, s, steps[0], base);
      NoLostUpdate(x, Apply(s, steps[0]), steps[1..], base);
    }
  }

  // The same, from any reachable state in which the key holds an int, no client has connected yet
  // and no other connection is about to write the key.
  lemma IncrementsAddUp(x: Clients, s: State, steps: seq<Step>, n: int)
    requires x.Valid() && Reachable(s) && Run(s, steps) && AllowedRun(x, s, steps)
    requires InRange(n)
    requires x.table in AbstractDb(s) && x.key in AbstractDb(s)[x.table] && AbstractDb(s)[x.table][x.key] == ToString(n)
    requires forall c :: c in s.conns ==> c !in x.users && OtherOk(x, s.conns[c])
    ensures var s' := After(s, steps);
            var runs := Increments(x, s'.history) - Increments(x, s.history);
            && x.table in AbstractDb(s') && x.key in AbstractDb(s')[x.table]
            && AbstractDb(s')[x.table][x.key] == ToString(Wrap32(n + runs))
            && (InRange(n + runs) ==> AbstractDb(s')[x.table][x.key] == ToString(n + runs))
  {
    hide AbstractDb, Serial, Increments, OtherOk, ClientOk, RegistryInv, Exec;
    ReachableInv(s);
    ReachableSerial(s);
    var base := n - Increments(x, s.history);
    assert forall c :: c in s.conns ==> ConnOk(x, c, s.conns[c]);
    NoLostUpdate(x, s, steps, base);
  }
}
