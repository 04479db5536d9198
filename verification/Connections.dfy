/** One client's session: client_connection.h and client_connection.cpp. */
module Connections {
  import opened Wrappers
  import opened Messages
  import opened Serialization
  import opened Lines
  import opened ValueStacks
  import opened Sessions
  import opened Tables
  import opened Handlers
  import opened Rio
  import opened Servers

  // The status and the bytes with which a handler ends.
  function StatusOf(served: Served): Status {
    match served
    case Replied(_, _, reply) =>
      if reply.kind.FAILED? && reply.args != [] then Threw(OperationException(reply.args[0])) else Returned
    case Fails(_, _, text) => Threw(FailedTransaction(text))
    case Leaves(_, _, reply) =>
      if reply.kind.ERROR? && reply.args != [] then Threw(InvalidMessage(reply.args[0])) else Returned
    case Waits(_, _) => Waiting
  }

  function SentBy(served: Served): seq<char> {
    if StatusOf(served).Returned? && (served.Replied? || served.Leaves?) && !served.reply.kind.NONE?
    then LineText(served.reply)
    else []
  }

  // FAILED and ERROR replies carry one text; every other reply has been encoded before it counts.
  predicate Regular(served: Served) {
    match served
    case Replied(_, _, reply) =>
      if reply.kind.FAILED? then |reply.args| == 1 else Encode(reply).Ok?
    case Leaves(_, _, reply) =>
      if reply.kind.ERROR? then |reply.args| == 1 else reply == OK_REPLY
    case _ => true
  }

  lemma JobsAreRegular(w: World, k: Local, c: Conn, job: Job)
    ensures Regular(ServeJob(w, k, c, job)) && !ServeJob(w, k, c, job).Leaves?
  {
    OkEncodes();
  }

  lemma ServedIsRegular(w: World, k: Local, c: Conn, m: Msg)
    requires m.Valid()
    ensures Regular(ServeAction(w, k, c, Handle(k.sess, m)))
    ensures m.kind.BYE?
            <==> var served := ServeAction(w, k, c, Handle(k.sess, m)); served.Leaves? && served.reply.kind.OK?
  {
    OkEncodes();
    HandleReplies(k.sess, m);
    var a := Handle(k.sess, m);
    if a.Start? {
      JobsAreRegular(w, k.(sess := a.sess), c, a.job);
    }
  }

  function Names(tables: set<Table>): set<string> {
    set t | t in tables :: t.name
  }

  lemma OkEncodes()
    ensures Encode(OK_REPLY) == Ok(LineText(OK_REPLY))
  {
    assert ArgsText([]) == [];
  }

  class ClientConnection {
    const me: Conn
    const server: Server
    const fd: Descriptor
    const rio: RioBuffer
    const stack: ValueStack
    var loggedIn: bool
    var inTx: bool
    var lockedTables: set<Table>

    ghost predicate Valid()
      reads this, server, rio
    {
      server.Valid() && rio.Valid() && rio.fd == fd && lockedTables <= server.tables.Values
    }

    ghost function Sess(): Session
      reads this, stack
    {
      Session(loggedIn, inTx, stack.vector)
    }

    ghost function Private(): Local
      reads this, stack
    {
      Local(Sess(), Names(lockedTables))
    }

    // The state, the bytes sent since out, and the status are those of served.
    ghost predicate Is(served: Served, out: seq<char>, status: Status)
      reads this, stack, server, server.tables.Values, fd
    {
      && server.Shared() == served.w && Private() == served.k
      && fd.outgoing == out + SentBy(served) && status == StatusOf(served)
    }

    // The same before the reply is sent: only OK is left to send.
    ghost predicate Reached(served: Served, status: Status)
      reads this, stack, server, server.tables.Values
    {
      && server.Shared() == served.w && Private() == served.k && status == StatusOf(served)
      && (status == Returned ==> served.Replied? && served.reply == OK_REPLY)
    }

    constructor (me: Conn, server: Server, fd: Descriptor)
      requires server.Valid()
      ensures Valid() && this.me == me && this.server == server && this.fd == fd
      ensures Private() == Local(NEW_SESSION, {})
      ensures rio.Stream() == fd.incoming
      ensures fresh(rio) && fresh(rio.buf) && fresh(stack)
    {
      this.me, this.server, this.fd := me, server, fd;
      this.rio := new RioBuffer(fd);
      this.stack := new ValueStack();
      this.loggedIn, this.inTx, this.lockedTables := false, false, {};
    }

    method Send(m: Msg) returns (status: Status)
      modifies fd`outgoing, fd`writePlan
      ensures match Encode(m)
              case Ok(text) => status == Returned && fd.outgoing == old(fd.outgoing) + text
              case Err(e) => status == Threw(InvalidMessage(e)) && fd.outgoing == old(fd.outgoing)
    {
      var message := new Message.Of(m);
      var encoded := EncodeMessage(message);
      if encoded.Err? {
        return Threw(InvalidMessage(encoded.error));
      }
      var n := fd.WriteN(encoded.value);
      return Returned;
    }

    method SendOk() returns (status: Status)
      modifies fd`outgoing, fd`writePlan
      ensures status == Returned && fd.outgoing == old(fd.outgoing) + LineText(OK_REPLY)
    {
      OkEncodes();
      status := Send(OK_REPLY);
    }

    method HandleLogin() returns (status: Status)
      requires Valid()
      modifies this`loggedIn, fd`outgoing, fd`writePlan
      ensures Valid()
      ensures Is(ServeAction(server.Shared(), old(Private()), me, LoginAction(old(Sess()))), old(fd.outgoing), status)
    {
      if loggedIn {
        return Threw(OperationException(ALREADY_LOGGED_IN));
      }
      loggedIn := true;
      status := SendOk();
    }

    method HandleBye() returns (status: Status)
      requires Valid()
      modifies fd`outgoing, fd`writePlan
      ensures Is(ServeAction(server.Shared(), old(Private()), me, Leave(OK_REPLY)), old(fd.outgoing), status)
    {
      status := SendOk();
    }

    method HandleBegin() returns (status: Status)
      requires Valid()
      modifies this`inTx, fd`outgoing, fd`writePlan
      ensures Valid()
      ensures Is(ServeAction(server.Shared(), old(Private()), me, BeginAction(old(Sess()))), old(fd.outgoing), status)
    {
      if inTx {
        return Threw(FailedTransaction(NESTED_TRANSACTION));
      }
      inTx := true;
      status := SendOk();
    }

    method HandlePush(value: string) returns (status: Status)
      requires Valid()
      modifies stack, fd`outgoing, fd`writePlan
      ensures Is(ServeAction(server.Shared(), old(Private()), me, PushAction(old(Sess()), value)), old(fd.outgoing),
              status)
    {
      stack.Push(value);
      status := SendOk();
    }

    method HandlePop() returns (status: Status)
      requires Valid()
      modifies stack, fd`outgoing, fd`writePlan
      ensures Is(ServeAction(server.Shared(), old(Private()), me, PopAction(old(Sess()))), old(fd.outgoing), status)
    {
      ghost var before := stack.vector;
      var error := stack.Pop();
      if error.Some? {
        return Threw(OperationException(error.value));
      }
      assert before[..|before| - 1] == stack.vector;
      status := SendOk();
    }

    method HandleTop() returns (status: Status)
      requires Valid()
      modifies fd`outgoing, fd`writePlan
      ensures Is(ServeAction(server.Shared(), old(Private()), me, TopAction(old(Sess()))), old(fd.outgoing), status)
    {
      assert stack.vector != [] ==> stack.vector == AllButLast(stack.vector) + [Last(stack.vector)];
      var top := stack.GetTop();
      if top.Err? {
        return Threw(OperationException(top.error));
      }
      status := Send(Msg(DATA, [top.value]));
    }

    // handle_add, handle_sub, handle_mul and handle_div: the same code but for the operator, the
    // text for a short stack, and the test for a zero divisor.
    method HandleArithmetic(op: ArithOp) returns (status: Status)
      requires Valid()
      modifies stack, fd`outgoing, fd`writePlan
      ensures Is(ServeAction(server.Shared(), old(Private()), me, ArithAction(old(Sess()), op)), old(fd.outgoing),
              status)
    {
      hide Operate, LineText, ServeJob;
      ghost var before := stack.vector;
      var n := stack.GetNumOfStack();
      if n < 2 {
        return Threw(OperationException(TooFew(op)));
      }
      var right, left := PopTwo();
      assert before[..|before| - 2] == stack.vector;
      var result, error := Calculate(op, left, right);
      if error.Some? {
        return Threw(OperationException(error.value));
      }
      stack.Push(result);
      status := SendOk();
    }

    method PopTwo() returns (right: string, left: string)
      requires |stack.vector| >= 2
      modifies stack
      ensures old(stack.vector) == stack.vector + [left, right]
    {
      ghost var before := stack.vector;
      assert before == before[..|before| - 1] + [before[|before| - 1]];
      var r := stack.GetTop();
      right := r.value;
      var error := stack.Pop();
      ghost var middle := stack.vector;
      assert middle == middle[..|middle| - 1] + [middle[|middle| - 1]];
      r := stack.GetTop();
      left := r.value;
      error := stack.Pop();
      assert middle == stack.vector + [left];
    }

    method Calculate(op: ArithOp, left: string, right: string) returns (result: string, error: Option<string>)
      ensures match Operate(op, left, right)
              case Ok(v) => error == None && result == v
              case Err(e) => error == Some(e)
    {
      result, error := "", None;
      var l := Integers.Stoi(left);
      if ParseError(l).Some? {
        error := ParseError(l);
        return;
      }
      var r := Integers.Stoi(right);
      if ParseError(r).Some? {
        error := ParseError(r);
        return;
      }
      if op.Div? && r.n == 0 {
        error := Some(DIVISION_BY_ZERO);
        return;
      }
      result := Integers.ToString(Integers.Wrap32(Exact(op, l.n, r.n)));
    }

    method HandleCreate(name: string) returns (status: Status)
      requires Valid()
      modifies server, fd`outgoing, fd`writePlan
      ensures Valid()
      ensures fresh(server.tables.Values - old(server.tables.Values))
      ensures Is(ServeAction(old(server.Shared()), old(Private()), me, Start(old(Sess()), CreateJob(name))),
              old(fd.outgoing), status)
    {
      ghost var w, k := server.Shared(), Private();
      status := server.CreateTable(name, me);
      if status != Returned {
        assert server.Shared() == w;
        return;
      }
      assert server.tables.Values - old(server.tables.Values) <= {server.tables[name]};
      assert server.Shared() == SetTable(w, name, NewTable(name));
      forall t | t in lockedTables
        ensures t in server.tables.Values
      {
        var n :| n in old(server.tables) && old(server.tables)[n] == t;
        assert server.tables[n] == t;
      }
      status := SendOk();
    }

    // The transaction's lock on a table: already held, or taken by trylock.
    method LockInTx(name: string, table: Table) returns (ok: bool)
      requires Valid() && name in server.tables && server.tables[name] == table
      modifies this`lockedTables, table`owner
      ensures Valid() && (ok <==> CanLock(old(server.Shared()), old(Private()), name))
      ensures ok ==> (server.Shared(), Private()) == LockTable(old(server.Shared()), old(Private()), me, name)
      ensures !ok ==> server.Shared() == old(server.Shared()) && Private() == old(Private())
    {
      NameIdentifies(name, table);
      if table !in lockedTables {
        ok := table.TryLock(me);
        OneTableChanged(name);
        if !ok {
          return;
        }
        lockedTables := lockedTables + {table};
        assert Names(lockedTables) == Names(old(lockedTables)) + {name};
      }
      ok := true;
    }

    // Table::set on a table of the server.
    method SetLocked(name: string, key: string, value: string, table: Table)
      requires Valid() && name in server.tables && server.tables[name] == table
      modifies table`pending
      ensures Valid()
      ensures server.Shared() == SetTable(old(server.Shared()), name, Written(old(table.Value()), key, value))
    {
      table.Set(key, value);
      OneTableChanged(name);
    }

    lemma NameIdentifies(name: string, table: Table)
      requires Valid() && name in server.tables && server.tables[name] == table
      ensures name in Names(lockedTables) <==> table in lockedTables
    {
      if name in Names(lockedTables) {
        var t :| t in lockedTables && t.name == name;
        var m :| m in server.tables && server.tables[m] == t;
      }
    }

    // Changing one table changes that entry of the shared state only.
    twostate lemma OneTableChanged(name: string)
      requires old(Valid()) && name in server.tables
      requires server.tables == old(server.tables) && server.registryOwner == old(server.registryOwner)
      requires forall t: Table :: t in server.tables.Values && t != server.tables[name] ==> t.Value() == old(t.Value())
      ensures server.Shared() == SetTable(old(server.Shared()), name, server.tables[name].Value())
    {
      forall n | n in server.tables && n != name
        ensures server.tables[n] in server.tables.Values && server.tables[n] != server.tables[name]
      {
      }
    }

    // The end of a handler: the OK response, unless something was thrown.
    method Finish(reached: Status, ghost served: Served) returns (status: Status)
      requires Valid() && Reached(served, reached)
      modifies fd`outgoing, fd`writePlan
      ensures Valid() && Is(served, old(fd.outgoing), status)
    {
      status := reached;
      if reached == Returned {
        status := SendOk();
      }
    }

    method HandleGet(name: string, key: string) returns (status: Status)
      requires Valid()
      modifies this`lockedTables, stack, server`registryOwner, server.tables.Values, fd`outgoing, fd`writePlan
      ensures Valid() && server.tables == old(server.tables)
      ensures Is(ServeJob(old(server.Shared()), old(Private()), me, GetJob(name, key)), old(fd.outgoing), status)
    {
      var reached := FindAndGet(name, key);
      status := Finish(reached, ServeJob(old(server.Shared()), old(Private()), me, GetJob(name, key)));
    }

    method FindAndGet(name: string, key: string) returns (status: Status)
      requires Valid()
      modifies this`lockedTables, stack, server`registryOwner, server.tables.Values
      ensures Valid() && server.tables == old(server.tables)
      ensures Reached(ServeJob(old(server.Shared()), old(Private()), me, GetJob(name, key)), status)
    {
      var table: Table?;
      status, table := server.FindTable(name, me);
      if status != Returned {
        return;
      }
      if inTx {
        status := GetInTx(name, key, table);
      } else {
        status := GetAuto(name, key, table);
      }
    }

    // Table::get and the push of its result.
    method FetchValue(key: string, table: Table) returns (status: Status)
      requires Valid()
      modifies stack
      ensures Valid() && Private() == Fetch(old(Private()), table.Value(), key).0
      ensures status == if Visible(table.Value(), key).Some? then Returned else Threw(OperationException(NO_SUCH_KEY))
    {
      var value := table.Get(key);
      if value.Err? {
        return Threw(OperationException(value.error));
      }
      stack.Push(value.value);
      status := Returned;
    }

    method GetInTx(name: string, key: string, table: Table) returns (status: Status)
      requires Valid() && name in server.tables && server.tables[name] == table
      modifies this`lockedTables, stack, table`owner
      ensures Valid()
      ensures Reached(ServeInTx(old(server.Shared()), old(Private()), me, GetJob(name, key)), status)
    {
      var ok := LockInTx(name, table);
      if !ok {
        return Threw(FailedTransaction(LOCK_FAILED + name));
      }
      status := FetchValue(key, table);
    }

    // An autocommit GET, from the moment its thread asks for the table; called again once the mutex
    // is free, it goes on with the shared state of that moment.
    method GetAuto(name: string, key: string, table: Table) returns (status: Status)
      requires Valid() && name in server.tables && server.tables[name] == table
      modifies stack, table`owner
      ensures Valid()
      ensures Reached(ServeAuto(old(server.Shared()), old(Private()), GetJob(name, key)), status)
    {
      var guard := new Guard(table, me);
      if !guard.acquired {
        OneTableChanged(name);
        return Waiting;
      }
      status := FetchValue(key, table);
      guard.Release();
      OneTableChanged(name);
    }

    // The value is popped before the table is looked up or locked.
    method HandleSet(name: string, key: string) returns (status: Status)
      requires Valid()
      modifies this`lockedTables, stack, server`registryOwner, server.tables.Values, fd`outgoing, fd`writePlan
      ensures Valid() && server.tables == old(server.tables)
      ensures Is(ServeAction(old(server.Shared()), old(Private()), me, SetAction(old(Sess()), name, key)),
              old(fd.outgoing), status)
    {
      hide ServeJob;
      var empty := stack.IsEmpty();
      if empty {
        return Threw(OperationException(STACK_EMPTY));
      }
      var value := PopValue();
      status := StoreValue(name, key, value);
    }

    method PopValue() returns (value: string)
      requires stack.vector != []
      modifies stack
      ensures value == Last(old(stack.vector)) && stack.vector == AllButLast(old(stack.vector))
    {
      ghost var before := stack.vector;
      assert before == AllButLast(before) + [Last(before)];
      var top := stack.GetTop();
      value := top.value;
      var error := stack.Pop();
      assert stack.vector == AllButLast(before);
    }

    method StoreValue(name: string, key: string, value: string) returns (status: Status)
      requires Valid()
      modifies this`lockedTables, server`registryOwner, server.tables.Values, fd`outgoing, fd`writePlan
      ensures Valid() && server.tables == old(server.tables)
      ensures Is(ServeJob(old(server.Shared()), old(Private()), me, SetJob(name, key, value)), old(fd.outgoing), status)
    {
      var reached := FindAndSet(name, key, value);
      status := Finish(reached, ServeJob(old(server.Shared()), old(Private()), me, SetJob(name, key, value)));
    }

    method FindAndSet(name: string, key: string, value: string) returns (status: Status)
      requires Valid()
      modifies this`lockedTables, server`registryOwner, server.tables.Values
      ensures Valid() && server.tables == old(server.tables)
      ensures Reached(ServeJob(old(server.Shared()), old(Private()), me, SetJob(name, key, value)), status)
    {
      var table: Table?;
      status, table := server.FindTable(name, me);
      if status != Returned {
        return;
      }
      if inTx {
        status := SetInTx(name, key, value, table);
      } else {
        status := SetAuto(name, key, value, table);
      }
    }

    method SetInTx(name: string, key: string, value: string, table: Table) returns (status: Status)
      requires Valid() && name in server.tables && server.tables[name] == table
      modifies this`lockedTables, table`owner, table`pending
      ensures Valid()
      ensures Reached(ServeInTx(old(server.Shared()), old(Private()), me, SetJob(name, key, value)), status)
    {
      var ok := LockInTx(name, table);
      if !ok {
        return Threw(FailedTransaction(LOCK_FAILED + name));
      }
      SetLocked(name, key, value, table);
      status := Returned;
    }

    // An autocommit SET, likewise.
    method SetAuto(name: string, key: string, value: string, table: Table) returns (status: Status)
      requires Valid() && name in server.tables && server.tables[name] == table
      modifies table`owner, table`pending, table`committed
      ensures Valid()
      ensures Reached(ServeAuto(old(server.Shared()), old(Private()), SetJob(name, key, value)), status)
    {
      ghost var w := server.Shared();
      var guard := new Guard(table, me);
      if !guard.acquired {
        OneTableChanged(name);
        return Waiting;
      }
      table.Set(key, value);
      table.CommitChanges();
      guard.Release();
      OneTableChanged(name);
      assert old(table.Value()) == w.tables[name];
      status := Returned;
    }

    // The loops of handle_commit, of the FailedTransaction handler and of the destructor: each
    // locked table is committed or rolled back and unlocked, one after the other.
    method ReleaseLoop(commit: bool)
      requires Valid()
      modifies lockedTables
      ensures forall t :: t in lockedTables ==> t.Value() == Released(old(t.Value()), commit)
    {
      var left := lockedTables;
      while left != {}
        invariant left <= lockedTables
        invariant forall t :: t in lockedTables && t !in left ==> t.Value() == Released(old(t.Value()), commit)
        invariant forall t :: t in left ==> t.Value() == old(t.Value())
        decreases left
      {
        var table :| table in left;
        if commit {
          table.CommitChanges();
        } else {
          table.RollbackChanges();
        }
        table.Unlock();
        left := left - {table};
      }
    }

    twostate lemma ReleasedByName(commit: bool)
      requires old(Valid()) && server.tables == old(server.tables) && server.registryOwner == old(server.registryOwner)
      requires forall t :: t in old(lockedTables) ==> t.Value() == Released(old(t.Value()), commit)
      requires forall t :: t in server.tables.Values && t !in old(lockedTables) ==> t.Value() == old(t.Value())
      ensures server.Shared() == if commit then CommitAll(old(server.Shared()), Names(old(lockedTables)))
                                 else RollbackAll(old(server.Shared()), Names(old(lockedTables)))
    {
      hide Saved, Dropped, Unlocked;
      forall n | n in server.tables
        ensures n in Names(old(lockedTables)) <==> server.tables[n] in old(lockedTables)
        ensures server.tables[n].Value() == if server.tables[n] in old(lockedTables)
                                            then Released(old(server.tables[n].Value()), commit)
                                            else old(server.tables[n].Value())
      {
        var table := server.tables[n];
        assert table in server.tables.Values;
        if n in Names(old(lockedTables)) {
          var t :| t in old(lockedTables) && t.name == n;
          var m :| m in server.tables && server.tables[m] == t;
        }
      }
    }

    method HandleCommit() returns (status: Status)
      requires Valid()
      modifies this`inTx, this`lockedTables, lockedTables, fd`outgoing, fd`writePlan
      ensures Valid()
      ensures Is(ServeAction(old(server.Shared()), old(Private()), me, CommitAction(old(Sess()))), old(fd.outgoing),
              status)
    {
      if !inTx {
        return Threw(OperationException(NOT_IN_TRANSACTION));
      }
      CommitTransaction();
      status := SendOk();
    }

    // handle_commit, up to the reply.
    method CommitTransaction()
      requires Valid()
      modifies this`inTx, this`lockedTables, lockedTables
      ensures Valid()
      ensures server.Shared() == CommitAll(old(server.Shared()), old(Private()).locked)
      ensures Private() == AfterTx(old(Private()))
    {
      ReleaseLoop(true);
      ReleasedByName(true);
      inTx := false;
      lockedTables := {};
    }

    // catch (const FailedTransaction&), up to the reply.
    method AbortTransaction()
      requires Valid()
      modifies this`inTx, this`lockedTables, lockedTables
      ensures Valid()
      ensures server.Shared() == RollbackAll(old(server.Shared()), old(Private()).locked)
      ensures Private() == AfterTx(old(Private()))
    {
      ReleaseLoop(false);
      ReleasedByName(false);
      inTx := false;
      lockedTables := {};
    }

    // ~ClientConnection
    method Destroy()
      requires Valid()
      modifies lockedTables
      ensures server.Shared() == if inTx then RollbackAll(old(server.Shared()), Private().locked)
              else old(server.Shared())
    {
      if inTx {
        ReleaseLoop(false);
        ReleasedByName(false);
      }
    }

    // The requests that only use the stack.
    method HandleStackRequest(req: Message) returns (status: Status)
      requires Valid() && req.Value().Valid() && loggedIn
      requires req.kind in {PUSH, POP, TOP, ADD, SUB, MUL, DIV}
      modifies stack, fd`outgoing, fd`writePlan
      ensures Valid()
      ensures Is(ServeAction(old(server.Shared()), old(Private()), me, Handle(old(Sess()), old(req.Value()))),
              old(fd.outgoing), status)
    {
      if req.kind in {ADD, SUB, MUL, DIV} {
        status := HandleOperation(req);
        return;
      }
      HandleChooses(Sess(), req.Value());
      hide Handle, ServeAction;
      match req.kind
      case PUSH => status := HandlePush(req.args[0]);
      case POP => status := HandlePop();
      case TOP => status := HandleTop();
    }

    method HandleOperation(req: Message) returns (status: Status)
      requires Valid() && req.Value().Valid() && loggedIn && req.kind in {ADD, SUB, MUL, DIV}
      modifies stack, fd`outgoing, fd`writePlan
      ensures Valid()
      ensures Is(ServeAction(old(server.Shared()), old(Private()), me, Handle(old(Sess()), old(req.Value()))),
              old(fd.outgoing), status)
    {
      HandleChooses(Sess(), req.Value());
      hide Handle, ServeAction;
      match req.kind
      case ADD => status := HandleArithmetic(Add);
      case SUB => status := HandleArithmetic(Sub);
      case MUL => status := HandleArithmetic(Mul);
      case DIV => status := HandleArithmetic(Div);
    }

    // The requests that use the shared tables.
    method HandleTableRequest(req: Message) returns (status: Status)
      requires Valid() && req.Value().Valid() && loggedIn
      requires req.kind in {CREATE, GET, SET, COMMIT}
      modifies this`inTx, this`lockedTables, stack, server, server.tables.Values, fd`outgoing, fd`writePlan
      ensures Valid()
      ensures fresh(server.tables.Values - old(server.tables.Values))
      ensures Is(ServeAction(old(server.Shared()), old(Private()), me, Handle(old(Sess()), old(req.Value()))),
              old(fd.outgoing), status)
    {
      match req.kind
      case CREATE => status := HandleCreate(req.args[0]);
      case GET => status := HandleGet(req.args[0], req.args[1]);
      case SET => status := HandleSet(req.args[0], req.args[1]);
      case COMMIT => status := HandleCommit();
    }

    // The requests that open, use or close the session itself.
    method HandleSessionRequest(req: Message) returns (status: Status)
      requires Valid() && req.Value().Valid() && (loggedIn || req.kind.LOGIN? || req.kind.BYE?)
      requires req.kind !in {CREATE, GET, SET, COMMIT, PUSH, POP, TOP, ADD, SUB, MUL, DIV}
      modifies this`loggedIn, this`inTx, fd`outgoing, fd`writePlan
      ensures Valid()
      ensures Is(ServeAction(old(server.Shared()), old(Private()), me, Handle(old(Sess()), old(req.Value()))),
              old(fd.outgoing), status)
    {
      match req.kind
      case LOGIN => status := HandleLogin();
      case BEGIN => status := HandleBegin();
      case BYE => status := HandleBye();
      case _ => status := Threw(InvalidMessage(UNKNOWN_REQUEST));
    }

    // The switch of chat_with_client, with the check for a login before it.
    method HandleRequest(req: Message) returns (status: Status)
      requires Valid() && req.Value().Valid()
      modifies this`loggedIn, this`inTx, this`lockedTables, stack, server, server.tables.Values, fd`outgoing,
               fd`writePlan
      ensures Valid()
      ensures fresh(server.tables.Values - old(server.tables.Values))
      ensures Is(ServeAction(old(server.Shared()), old(Private()), me, Handle(old(Sess()), old(req.Value()))),
              old(fd.outgoing), status)
    {
      if !req.kind.LOGIN? && !req.kind.BYE? && !loggedIn {
        return Threw(OperationException(NOT_LOGGED_IN));
      }
      if req.kind in {CREATE, GET, SET, COMMIT} {
        status := HandleTableRequest(req);
      } else if req.kind in {PUSH, POP, TOP, ADD, SUB, MUL, DIV} {
        status := HandleStackRequest(req);
      } else {
        status := HandleSessionRequest(req);
      }
    }

    // One pass of the loop has had the outcome o; end tells whether the loop is left, and how.
    ghost predicate Did(o: PassOutcome, out: seq<char>, end: Option<ChatEnd>)
      reads this, stack, server, server.tables.Values, fd
    {
      && server.Shared() == o.w && Private() == o.k
      && match o
         case Continues(_, _, reply) => !reply.kind.NONE? && fd.outgoing == out + LineText(reply) && end == None
         case Ends(_, _, reply) => !reply.kind.NONE? && fd.outgoing == out + LineText(reply) && end == Some(Finished)
         case Stuck(_, _) => fd.outgoing == out && end == Some(WaitsForLock)
         case Escapes(_, _) => fd.outgoing == out && end == Some(Crashed)
    }

    // The catch clauses. An exception inside one of them is caught by nobody.
    method CatchOperation(text: string, ghost served: Served, ghost out: seq<char>) returns (end: Option<ChatEnd>)
      requires Valid() && Is(served, out, Threw(OperationException(text))) && Regular(served)
      modifies fd`outgoing, fd`writePlan
      ensures Valid() && Did(Catch(served), out, end)
    {
      var sent := Send(FailedReply(text));
      assert served.reply == FailedReply(text) by {
        assert served.reply.args == [text];
      }
      return if sent == Returned then None else Some(Crashed);
    }

    method CatchFailedTransaction(text: string, ghost served: Served, ghost out: seq<char>)
      returns (end: Option<ChatEnd>)
      requires Valid() && Is(served, out, Threw(FailedTransaction(text))) && Regular(served)
      modifies this`inTx, this`lockedTables, lockedTables, fd`outgoing, fd`writePlan
      ensures Valid() && Did(Catch(served), out, end)
    {
      AbortTransaction();
      var sent := Send(FailedReply(text));
      return if sent == Returned then None else Some(Crashed);
    }

    method CatchInvalidMessage(text: string, ghost served: Served, ghost out: seq<char>) returns (end: Option<ChatEnd>)
      requires Valid() && Is(served, out, Threw(InvalidMessage(text))) && Regular(served)
      modifies fd`outgoing, fd`writePlan
      ensures Valid() && Did(Catch(served), out, end)
    {
      var sent := Send(Msg(ERROR, [text]));
      assert served.reply == Msg(ERROR, [text]) by {
        assert served.reply.args == [text];
      }
      return if sent == Returned then Some(Finished) else Some(Crashed);
    }

    method HandleStatus(status: Status, bye: bool, ghost served: Served, ghost out: seq<char>)
      returns (end: Option<ChatEnd>)
      requires Valid() && Is(served, out, status) && Regular(served)
      requires bye <==> served.Leaves? && served.reply.kind.OK?
      modifies this`inTx, this`lockedTables, lockedTables, fd`outgoing, fd`writePlan
      ensures Valid() && server.tables == old(server.tables)
      ensures Did(Catch(served), out, end)
    {
      match status
      case Returned =>
        OkEncodes();
        end := if bye then Some(Finished) else None;
      case Waiting => end := Some(WaitsForLock);
      case Threw(OperationException(text)) => end := CatchOperation(text, served, out);
      case Threw(FailedTransaction(text)) => end := CatchFailedTransaction(text, served, out);
      case Threw(InvalidMessage(text)) => end := CatchInvalidMessage(text, served, out);
    }

    // A decoded request: handle, catch.
    method ServeDecoded(req: Message) returns (end: Option<ChatEnd>)
      requires Valid() && req.Value().Valid()
      modifies this`loggedIn, this`inTx, this`lockedTables, stack, server, server.tables.Values, fd`outgoing,
               fd`writePlan
      ensures Valid()
      ensures fresh(server.tables.Values - old(server.tables.Values))
      ensures Did(Catch(ServeAction(old(server.Shared()), old(Private()), me, Handle(old(Sess()), old(req.Value())))),
                  old(fd.outgoing), end)
    {
      hide Catch, ServeAction, Handle;
      ghost var w, k, out, m := server.Shared(), Private(), fd.outgoing, req.Value();
      ServedIsRegular(w, k, me, m);
      var status := HandleRequest(req);
      end := HandleStatus(status, req.kind.BYE?, ServeAction(w, k, me, Handle(k.sess, m)), out);
    }

    // An undecodable line: decode threw.
    method Reject(text: string) returns (end: Option<ChatEnd>)
      requires Valid()
      modifies fd`outgoing, fd`writePlan
      ensures Valid()
      ensures Did(Catch(Leaves(old(server.Shared()), old(Private()), Msg(ERROR, [text]))), old(fd.outgoing), end)
    {
      hide Catch;
      end := CatchInvalidMessage(text, Leaves(server.Shared(), Private(), Msg(ERROR, [text])), fd.outgoing);
    }

    // One request: decode, handle, catch.
    method ServeRequest(encoded: string, ghost line: string) returns (end: Option<ChatEnd>)
      requires Valid() && encoded == CString(line)
      modifies this`loggedIn, this`inTx, this`lockedTables, stack, server, server.tables.Values, fd`outgoing,
               fd`writePlan
      ensures Valid()
      ensures fresh(server.tables.Values - old(server.tables.Values))
      ensures Did(ServeLine(old(server.Shared()), old(Private()), me, line), old(fd.outgoing), end)
    {
      hide ServeLine, Catch, ServeAction, Handle, CString, Decode, Did;
      ghost var w, k := server.Shared(), Private();
      var req, error := DecodeNew(encoded);
      assert server.Shared() == w && Private() == k;
      if error.Some? {
        BadLine(w, k, me, line, error.value);
        end := Reject(error.value);
      } else {
        GoodLine(w, k, me, line, req.Value());
        end := ServeDecoded(req);
      }
    }

    // One pass of the chat loop: either the session goes on, having sent something, or it is over.
    method ChatPass() returns (end: Option<ChatEnd>, ghost sent: seq<char>)
      requires Valid()
      modifies this`loggedIn, this`inTx, this`lockedTables, stack, server, server.tables.Values, fd,
               rio`cnt, rio`ptr, rio.buf
      ensures Valid()
      ensures fresh(server.tables.Values - old(server.tables.Values))
      ensures end.Some? ==> DidChat(Chat(old(server.Shared()), old(Private()), me, old(rio.Stream())),
              old(fd.outgoing), end.value)
      ensures end.None? ==>
                && |rio.Stream()| < |old(rio.Stream())| && fd.outgoing == old(fd.outgoing) + sent
                && Chat(old(server.Shared()), old(Private()), me, old(rio.Stream()))
                == Prepended(sent, Chat(server.Shared(), Private(), me, rio.Stream()))
    {
      hide ServeLine, Chat, LineOf;
      sent := [];
      ghost var w, k, stream := server.Shared(), Private(), rio.Stream();
      var n, encoded, line := NextLine(rio);
      ChatUnfolds(w, k, me, stream);
      if n <= 0 {
        return Some(Finished), [];
      }
      end := ServeRequest(encoded, line);
      ghost var o := ServeLine(w, k, me, line);
      if end.None? {
        sent := LineText(o.reply);
      }
    }

    // The chat loop. Whatever the chunks in which the bytes arrive and leave, the session is the one
    // the byte stream determines.
    method ChatWithClient() returns (end: ChatEnd)
      requires Valid()
      modifies this`loggedIn, this`inTx, this`lockedTables, stack, server, server.tables.Values, fd,
               rio`cnt, rio`ptr, rio.buf
      ensures Valid()
      ensures fresh(server.tables.Values - old(server.tables.Values))
      ensures DidChat(Chat(old(server.Shared()), old(Private()), me, old(rio.Stream())), old(fd.outgoing), end)
    {
      hide Chat, Prepended, DidChat, Private, RioBuffer.Stream, Server.Shared;
      ghost var goal, out := Chat(server.Shared(), Private(), me, rio.Stream()), fd.outgoing;
      ghost var sent: seq<char> := [];
      PrependedNothing(goal);
      assert out + [] == out;
      while true
        invariant Valid() && fd.outgoing == out + sent
        invariant fresh(server.tables.Values - old(server.tables.Values))
        invariant goal == Prepended(sent, Chat(server.Shared(), Private(), me, rio.Stream()))
        decreases |rio.Stream()|
      {
        ghost var rest := Chat(server.Shared(), Private(), me, rio.Stream());
        var stop, more := ChatPass();
        if stop.Some? {
          EarlierSent(rest, out, sent, stop.value);
          return stop.value;
        }
        PrependedTwice(sent, more, Chat(server.Shared(), Private(), me, rio.Stream()));
        assert (out + sent) + more == out + (sent + more);
        sent := sent + more;
      }
    }

    lemma EarlierSent(r: ChatResult, out: seq<char>, sent: seq<char>, end: ChatEnd)
      requires DidChat(r, out + sent, end)
      ensures DidChat(Prepended(sent, r), out, end)
    {
      assert (out + sent) + r.sent == out + (sent + r.sent);
    }

    // The session has had the result r, but for what was sent before out.
    ghost predicate DidChat(r: ChatResult, out: seq<char>, end: ChatEnd)
      reads this, stack, server, server.tables.Values, fd
    {
      server.Shared() == r.w && Private() == r.k && fd.outgoing == out + r.sent && end == r.end
    }
  }

  // client_worker: a new connection chats with its client until the end, and is then destroyed.
  method ClientWorker(me: Conn, server: Server, fd: Descriptor) returns (end: ChatEnd)
    requires server.Valid()
    modifies server, server.tables.Values, fd
    ensures server.Valid()
    ensures Worked(Chat(old(server.Shared()), Local(NEW_SESSION, {}), me, old(fd.incoming)), server.Shared(),
            old(fd.outgoing), fd.outgoing, end)
  {
    var client := new ClientConnection(me, server, fd);
    end := client.ChatWithClient();
    if end.Finished? {
      client.Destroy();
    }
  }

  // A thread that waits for a lock, or whose process an exception has ended, runs no destructor.
  predicate Worked(r: ChatResult, w: World, out: seq<char>, out': seq<char>, end: ChatEnd) {
    out' == out + r.sent && end == r.end && w == if end.Finished? then Destroyed(r) else r.w
  }
}
