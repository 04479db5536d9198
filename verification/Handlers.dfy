/** What one connection's thread does with a request while the other threads stand still: the
    specification of the classes in Servers and Connections. */
module Handlers {
  import opened Wrappers
  import opened Messages
  import opened Serialization
  import opened Lines
  import opened Sessions
  import opened Tables
  import opened Rio

  // The shared state: the registered tables, and the registry mutex.
  datatype World = World(tables: map<string, TableState>, registryOwner: Option<Conn>)

  // A connection's own state: its session and the names of the tables it has locked.
  datatype Local = Local(sess: Session, locked: set<string>)

  // How a handler ends.
  datatype Served =
    | Replied(w: World, k: Local, reply: Msg)   // a FAILED reply stands for an OperationException
    | Fails(w: World, k: Local, text: string)   // FailedTransaction
    | Leaves(w: World, k: Local, reply: Msg)    // BYE, or an ERROR reply for an InvalidMessage
    | Waits(w: World, k: Local)                 // in pthread_mutex_lock, on a mutex somebody holds

  function SetTable(w: World, name: string, e: TableState): World {
    w.(tables := w.tables[name := e])
  }

  function Fetch(k: Local, e: TableState, key: string): (Local, Msg) {
    match Visible(e, key)
    case Some(v) => (k.(sess := k.sess.(stack := k.sess.stack + [v])), OK_REPLY)
    case None => (k, FailedReply(NO_SUCH_KEY))
  }

  // The access itself, on a table the transaction has locked.
  function ServeLocked(w: World, k: Local, job: Job): Served
    requires !job.CreateJob? && job.name in w.tables
  {
    var e := w.tables[job.name];
    match job
    case GetJob(_, key) => var (k', reply) := Fetch(k, e, key); Replied(w, k', reply)
    case SetJob(_, key, value) => Replied(SetTable(w, job.name, Written(e, key, value)), k, OK_REPLY)
  }

  // A transaction can use a table that it has locked, or that nobody has.
  predicate CanLock(w: World, k: Local, name: string)
    requires name in w.tables
  {
    name in k.locked || w.tables[name].owner.None?
  }

  function LockTable(w: World, k: Local, c: Conn, name: string): (World, Local)
    requires name in w.tables
  {
    if name in k.locked then (w, k)
    else (SetTable(w, name, Locked(w.tables[name], c)), k.(locked := k.locked + {name}))
  }

  function ServeInTx(w: World, k: Local, c: Conn, job: Job): Served
    requires !job.CreateJob? && job.name in w.tables
  {
    if !CanLock(w, k, job.name) then Fails(w, k, LOCK_FAILED + job.name)
    else
      var (w', k') := LockTable(w, k, c, job.name);
      ServeLocked(w', k', job)
  }

  function ServeAuto(w: World, k: Local, job: Job): Served
    requires !job.CreateJob? && job.name in w.tables
  {
    var e := w.tables[job.name];
    if e.owner.Some? then Waits(w, k)
    else match job
      case GetJob(_, key) => var (k', reply) := Fetch(k, e, key); Replied(w, k', reply)
      case SetJob(_, key, value) => Replied(SetTable(w, job.name, Saved(Written(e, key, value))), k, OK_REPLY)
  }

  function ServeJob(w: World, k: Local, c: Conn, job: Job): Served {
    if w.registryOwner.Some? then Waits(w, k)
    else if job.CreateJob? then
      if job.name in w.tables then Replied(w, k, FailedReply(DUPLICATE_TABLE))
      else Replied(SetTable(w, job.name, NewTable(job.name)), k, OK_REPLY)
    else if job.name !in w.tables then Replied(w, k, FailedReply(NO_SUCH_TABLE))
    else if k.sess.inTx then ServeInTx(w, k, c, job)
    else ServeAuto(w, k, job)
  }

  function CommitAll(w: World, names: set<string>): World {
    w.(tables := map n | n in w.tables :: if n in names then Unlocked(Saved(w.tables[n])) else w.tables[n])
  }

  function RollbackAll(w: World, names: set<string>): World {
    w.(tables := map n | n in w.tables :: if n in names then Unlocked(Dropped(w.tables[n])) else w.tables[n])
  }

  function AfterTx(k: Local): Local {
    Local(k.sess.(inTx := false), {})
  }

  function ServeAction(w: World, k: Local, c: Conn, action: Action): Served {
    match action
    case Answer(sess, reply) => Replied(w, k.(sess := sess), reply)
    case Leave(reply) => Leaves(w, k, reply)
    case Start(sess, job) => ServeJob(w, k.(sess := sess), c, job)
    case Commit => Replied(CommitAll(w, k.locked), AfterTx(k), OK_REPLY)
    case Abort(text) => Fails(w, k, text)
  }

  // One pass of the chat loop: what is sent, and whether the loop goes on.
  datatype PassOutcome =
    | Continues(w: World, k: Local, reply: Msg)
    | Ends(w: World, k: Local, reply: Msg)
    | Stuck(w: World, k: Local)
    | Escapes(w: World, k: Local)   // encode threw inside a catch clause

  // The catch clauses of chat_with_client. What is sent has been encoded.
  function Catch(served: Served): (o: PassOutcome)
    ensures o.Continues? || o.Ends? ==> !o.reply.kind.NONE? && Encode(o.reply) == Ok(LineText(o.reply))
  {
    match served
    case Replied(w, k, reply) =>
      if Encode(reply).Ok? then Continues(w, k, reply) else Escapes(w, k)
    case Fails(w, k, text) =>
      if Encode(FailedReply(text)).Ok? then Continues(RollbackAll(w, k.locked), AfterTx(k), FailedReply(text))
      else Escapes(RollbackAll(w, k.locked), AfterTx(k))
    case Leaves(w, k, reply) =>
      if Encode(reply).Ok? then Ends(w, k, reply) else Escapes(w, k)
    case Waits(w, k) => Stuck(w, k)
  }

  // One pass for a decoded request.
  function ServeMessage(w: World, k: Local, c: Conn, m: Msg): (o: PassOutcome)
    requires m.Valid()
    ensures o.Continues? || o.Ends? ==> !o.reply.kind.NONE? && Encode(o.reply) == Ok(LineText(o.reply))
  {
    Catch(ServeAction(w, k, c, Handle(k.sess, m)))
  }

  function ServeLine(w: World, k: Local, c: Conn, line: string): (o: PassOutcome)
    ensures o.Continues? || o.Ends? ==> !o.reply.kind.NONE? && Encode(o.reply) == Ok(LineText(o.reply))
  {
    Catch(ServeAction(w, k, c, Dispatch(k.sess, line)))
  }

  // An undecodable line is an InvalidMessage.
  lemma BadLine(w: World, k: Local, c: Conn, line: string, text: string)
    requires Decode(CString(line)) == Err(text)
    ensures ServeLine(w, k, c, line) == Catch(Leaves(w, k, Msg(ERROR, [text])))
  {
  }

  // Any other line goes to its handler.
  lemma GoodLine(w: World, k: Local, c: Conn, line: string, m: Msg)
    requires Decode(CString(line)) == Ok(m)
    ensures m.Valid() && ServeLine(w, k, c, line) == ServeMessage(w, k, c, m)
  {
  }

  datatype ChatEnd = Finished | WaitsForLock | Crashed

  datatype ChatResult = ChatResult(w: World, k: Local, sent: seq<char>, end: ChatEnd)

  function Prepended(sent: seq<char>, r: ChatResult): ChatResult {
    r.(sent := sent + r.sent)
  }

  // The result of a session whose last pass had the outcome o.
  function Concluded(o: PassOutcome): ChatResult
    requires !o.Continues?
    requires o.Ends? ==> !o.reply.kind.NONE?
  {
    match o
    case Ends(w, k, reply) => ChatResult(w, k, LineText(reply), Finished)
    case Stuck(w, k) => ChatResult(w, k, [], WaitsForLock)
    case Escapes(w, k) => ChatResult(w, k, [], Crashed)
  }

  // A whole session on a byte stream, up to the destructor.
  function Chat(w: World, k: Local, c: Conn, stream: seq<char>): ChatResult
    decreases |stream|
  {
    LineOfIsShortest(stream, MAX_LINE);
    var line := LineOf(stream, MAX_LINE);
    if line == [] then ChatResult(w, k, [], Finished) else
      var o := ServeLine(w, k, c, line);
      if o.Continues? then Prepended(LineText(o.reply), Chat(o.w, o.k, c, stream[|line|..]))
      else Concluded(o)
  }

  lemma PrependedNothing(r: ChatResult)
    ensures Prepended([], r) == r
  {
  }

  lemma PrependedTwice(a: seq<char>, b: seq<char>, r: ChatResult)
    ensures Prepended(a, Prepended(b, r)) == Prepended(a + b, r)
  {
    assert a + (b + r.sent) == (a + b) + r.sent;
  }

  // One unfolding of Chat.
  lemma ChatUnfolds(w: World, k: Local, c: Conn, stream: seq<char>)
    ensures |LineOf(stream, MAX_LINE)| <= |stream|
    ensures Chat(w, k, c, stream) == ChatFrom(w, k, c, stream, LineOf(stream, MAX_LINE))
  {
    LineOfIsShortest(stream, MAX_LINE);
  }

  function ChatFrom(w: World, k: Local, c: Conn, stream: seq<char>, line: seq<char>): ChatResult
    requires |line| <= |stream|
  {
    if line == [] then ChatResult(w, k, [], Finished) else
      var o := ServeLine(w, k, c, line);
      if o.Continues? then Prepended(LineText(o.reply), Chat(o.w, o.k, c, stream[|line|..])) else Concluded(o)
  }

  // The destructor.
  function Destroyed(r: ChatResult): World {
    if r.k.sess.inTx then RollbackAll(r.w, r.k.locked) else r.w
  }
}
