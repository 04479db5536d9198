/** The server as a state machine. Connections run as threads over a shared registry of tables; each
    lock, each unlock, and each per-table commit or rollback is a step of its own. */
module Protocol {
  import opened Wrappers
  import opened Messages
  import opened Lines
  import opened Sessions
  import opened Tables

  type TableId = nat

  // All tables by name.
  type Db = map<string, Content>

  // One access to a locked table, with what it saw or wrote.
  datatype Event =
    | Got(table: string, key: string, result: Option<string>)
    | Put(table: string, key: string, value: string)

  // What became visible to everyone, in the order it did: a new table, or the accesses of one
  // transaction or of one autocommit request.
  datatype Item = Created(table: string) | Committed(conn: Conn, log: seq<Event>)

  datatype RegistryResult = Made | Duplicate | Missing | Found(t: TableId)

  // Where a connection's thread stands.
  datatype Phase =
    | Idle                                    // in rio_readlineb
    | WantRegistry(job: Job)                  // blocked on the registry mutex, or about to take it
    | HoldRegistry(job: Job)
    | LeaveRegistry(job: Job, outcome: RegistryResult)
    | AtTable(job: Job, t: TableId)           // in a transaction, before the trylock
    | InTable(job: Job, t: TableId)           // in a transaction, table locked
    | WantTable(job: Job, t: TableId)         // autocommit, blocked on the table's Guard
    | HoldTable(job: Job, t: TableId)         // autocommit, Guard held
    | FlushTable(job: Job, t: TableId)        // autocommit SET written, not yet committed
    | LeaveTable(t: TableId, reply: Msg)      // autocommit done, Guard not yet released
    | Committing(left: set<TableId>, at: Option<TableId>)
    | RollingBack(left: set<TableId>, at: Option<TableId>, answer: Option<Msg>)
    | Closed

  datatype Connection = Connection(
    sess: Session,
    locked: set<TableId>,
    log: seq<Event>,      // accesses since BEGIN
    phase: Phase,
    requests: nat,        // lines received
    replies: seq<Msg>)    // responses sent

  const FRESH := Connection(NEW_SESSION, {}, [], Idle, 0, [])

  datatype State = State(
    registry: map<string, TableId>,
    registryOwner: Option<Conn>,
    tables: map<TableId, TableState>,
    conns: map<Conn, Connection>,
    history: seq<Item>)

  const INIT := State(map[], None, map[], map[], [])

  datatype Step =
    | Connect(c: Conn)
    | Arrive(c: Conn, line: string)
    | TakeRegistry(c: Conn)
    | UseRegistry(c: Conn, newId: TableId)
    | DropRegistry(c: Conn)
    | TryTable(c: Conn)
    | Access(c: Conn)
    | TakeTable(c: Conn)
    | AutoAccess(c: Conn)
    | AutoFlush(c: Conn)
    | DropTable(c: Conn)
    | CommitOne(c: Conn, t: TableId)
    | CommitUnlock(c: Conn)
    | CommitDone(c: Conn)
    | AbortOne(c: Conn, t: TableId)
    | AbortUnlock(c: Conn)
    | AbortDone(c: Conn)


  // Whether a thread can take a step. Only the two blocking acquisitions look at an owner; an
  // unlock never does, just as pthread_mutex_unlock does not.
  predicate Enabled(s: State, step: Step) {
    if step.Connect? then step.c !in s.conns else
      && step.c in s.conns
      && var phase := s.conns[step.c].phase;
      match step
      case Arrive(_, line) => phase.Idle? && |line| <= MAX_LINE
      case TakeRegistry(_) => phase.WantRegistry? && s.registryOwner.None?
      case UseRegistry(_, newId) => phase.HoldRegistry? && newId !in s.tables
      case DropRegistry(_) => phase.LeaveRegistry?
      case TryTable(_) => phase.AtTable? && phase.t in s.tables
      case Access(_) => phase.InTable? && !phase.job.CreateJob? && phase.t in s.tables
      case TakeTable(_) => phase.WantTable? && phase.t in s.tables && s.tables[phase.t].owner.None?
      case AutoAccess(_) => phase.HoldTable? && !phase.job.CreateJob? && phase.t in s.tables
      case AutoFlush(_) => phase.FlushTable? && phase.job.SetJob? && phase.t in s.tables
      case DropTable(_) => phase.LeaveTable? && phase.t in s.tables
      case CommitOne(_, t) => phase.Committing? && phase.at.None? && t in phase.left && t in s.tables
      case CommitUnlock(_) => phase.Committing? && phase.at.Some? && phase.at.value in s.tables
      case CommitDone(_) => phase.Committing? && phase.at.None? && phase.left == {}
      case AbortOne(_, t) => phase.RollingBack? && phase.at.None? && t in phase.left && t in s.tables
      case AbortUnlock(_) => phase.RollingBack? && phase.at.Some? && phase.at.value in s.tables
      case AbortDone(_) => phase.RollingBack? && phase.at.None? && phase.left == {}
  }

  function Answered(k: Connection, reply: Msg): Connection {
    k.(phase := Idle, replies := k.replies + [reply])
  }

  // The session ends: the destructor rolls back an open transaction.
  function EndSession(k: Connection): Connection {
    k.(phase := if k.sess.inTx then RollingBack(k.locked, None, None) else Closed)
  }

  function Act(k: Connection, action: Action): Connection {
    match action
    case Answer(sess, reply) => Answered(k.(sess := sess), reply)
    case Leave(reply) => EndSession(k.(replies := k.replies + [reply]))
    case Start(sess, job) => k.(sess := sess, phase := WantRegistry(job))
    case Commit => k.(phase := Committing(k.locked, None))
    case Abort(text) => k.(phase := RollingBack(k.locked, None, Some(FailedReply(text))))
  }

  // A line arrives, or the empty string at end of input.
  function Receive(k: Connection, line: string): Connection {
    if line == [] then EndSession(k) else Act(k.(requests := k.requests + 1), Dispatch(k.sess, line))
  }

  // The stack and the reply after a GET that saw r.
  function Fetched(k: Connection, r: Option<string>): (Connection, Msg) {
    match r
    case Some(v) => (k.(sess := k.sess.(stack := k.sess.stack + [v])), OK_REPLY)
    case None => (k, FailedReply(NO_SUCH_KEY))
  }

  // Out of the registry: the reply, or on to the table.
  function Leaving(k: Connection, job: Job, outcome: RegistryResult): Connection {
    match outcome
    case Made => Answered(k, OK_REPLY)
    case Duplicate => Answered(k, FailedReply(DUPLICATE_TABLE))
    case Missing => Answered(k, FailedReply(NO_SUCH_TABLE))
    case Found(t) => k.(phase := if k.sess.inTx then AtTable(job, t) else WantTable(job, t))
  }

  function SetConn(s: State, c: Conn, k: Connection): State {
    s.(conns := s.conns[c := k])
  }

  function SetBoth(s: State, c: Conn, k: Connection, t: TableId, e: TableState): State {
    s.(conns := s.conns[c := k], tables := s.tables[t := e])
  }

  function ApplyArrive(s: State, c: Conn, line: string): State
    requires Enabled(s, Arrive(c, line))
  {
    var k := Receive(s.conns[c], line);
    SetConn(s, c, k).(history := if k.phase.Committing? then s.history + [Committed(c, k.log)] else s.history)
  }

  function ApplyUseRegistry(s: State, c: Conn, newId: TableId): State
    requires Enabled(s, UseRegistry(c, newId))
  {
    var k := s.conns[c];
    var job := k.phase.job;
    if job.CreateJob? then
      if job.name in s.registry then SetConn(s, c, k.(phase := LeaveRegistry(job, Duplicate)))
      else
        SetBoth(s, c, k.(phase := LeaveRegistry(job, Made)), newId, NewTable(job.name))
          .(registry := s.registry[job.name := newId], history := s.history + [Created(job.name)])
    else
      SetConn(s, c, k.(phase := LeaveRegistry(job, if job.name in s.registry then Found(s.registry[job.name])
        else Missing)))
  }

  // In a transaction: a table already locked is used; otherwise trylock, and failure rolls back.
  function ApplyTryTable(s: State, c: Conn): State
    requires Enabled(s, TryTable(c))
  {
    var k := s.conns[c];
    var t, job := k.phase.t, k.phase.job;
    if t in k.locked then SetConn(s, c, k.(phase := InTable(job, t)))
    else if s.tables[t].owner.None? then
      SetBoth(s, c, k.(phase := InTable(job, t), locked := k.locked + {t}), t, Locked(s.tables[t], c))
    else
      SetConn(s, c, k.(phase := RollingBack(k.locked, None, Some(FailedReply(LOCK_FAILED + job.name)))))
  }

  function ApplyAccess(s: State, c: Conn): State
    requires Enabled(s, Access(c))
  {
    var k := s.conns[c];
    var t, job := k.phase.t, k.phase.job;
    match job
    case GetJob(name, key) =>
      var r := Visible(s.tables[t], key);
      var (k', reply) := Fetched(k.(log := k.log + [Got(name, key, r)]), r);
      SetConn(s, c, Answered(k', reply))
    case SetJob(name, key, value) =>
      SetBoth(s, c, Answered(k.(log := k.log + [Put(name, key, value)]), OK_REPLY), t, Written(s.tables[t], key, value))
  }

  function ApplyAutoAccess(s: State, c: Conn): State
    requires Enabled(s, AutoAccess(c))
  {
    var k := s.conns[c];
    var t, job := k.phase.t, k.phase.job;
    match job
    case GetJob(name, key) =>
      var r := Visible(s.tables[t], key);
      var (k', reply) := Fetched(k, r);
      SetConn(s, c, k'.(phase := LeaveTable(t, reply)))
        .(history := s.history + [Committed(c, [Got(name, key, r)])])
    case SetJob(name, key, value) =>
      SetBoth(s, c, k.(phase := FlushTable(job, t)), t, Written(s.tables[t], key, value))
  }

  function ApplyAutoFlush(s: State, c: Conn): State
    requires Enabled(s, AutoFlush(c))
  {
    var k := s.conns[c];
    var t, job := k.phase.t, k.phase.job;
    SetBoth(s, c, k.(phase := LeaveTable(t, OK_REPLY)), t, Saved(s.tables[t]))
      .(history := s.history + [Committed(c, [Put(job.name, job.key, job.value)])])
  }

  // The transaction is over, one way or the other.
  function EndTx(k: Connection): Connection {
    k.(sess := k.sess.(inTx := false), locked := {}, log := [])
  }

  function Apply(s: State, step: Step): State
    requires Enabled(s, step)
  {
    var c := step.c;
    if step.Connect? then SetConn(s, c, FRESH) else
      var k := s.conns[c];
      match step
      case Arrive(_, line) => ApplyArrive(s, c, line)
      case TakeRegistry(_) => SetConn(s, c, k.(phase := HoldRegistry(k.phase.job))).(registryOwner := Some(c))
      case UseRegistry(_, newId) => ApplyUseRegistry(s, c, newId)
      case DropRegistry(_) => SetConn(s, c, Leaving(k, k.phase.job, k.phase.outcome)).(registryOwner := None)
      case TryTable(_) => ApplyTryTable(s, c)
      case Access(_) => ApplyAccess(s, c)
      case TakeTable(_) =>
        var t := k.phase.t;
        SetBoth(s, c, k.(phase := HoldTable(k.phase.job, t)), t, Locked(s.tables[t], c))
      case AutoAccess(_) => ApplyAutoAccess(s, c)
      case AutoFlush(_) => ApplyAutoFlush(s, c)
      case DropTable(_) => SetBoth(s, c, Answered(k, k.phase.reply), k.phase.t, Unlocked(s.tables[k.phase.t]))
      case CommitOne(_, t) => SetBoth(s, c, k.(phase := Committing(k.phase.left, Some(t))), t, Saved(s.tables[t]))
      case CommitUnlock(_) =>
        var t := k.phase.at.value;
        SetBoth(s, c, k.(phase := Committing(k.phase.left - {t}, None)), t, Unlocked(s.tables[t]))
      case CommitDone(_) => SetConn(s, c, Answered(EndTx(k), OK_REPLY))
      case AbortOne(_, t) => SetBoth(s, c, k.(phase := RollingBack(k.phase.left, Some(t), k.phase.answer)), t,
           Dropped(s.tables[t]))
      case AbortUnlock(_) =>
        var t := k.phase.at.value;
        SetBoth(s, c, k.(phase := RollingBack(k.phase.left - {t}, None, k.phase.answer)), t, Unlocked(s.tables[t]))
      case AbortDone(_) =>
        SetConn(s, c, match k.phase.answer
                      case Some(reply) => Answered(EndTx(k), reply)
                      case None => EndTx(k).(phase := Closed))
  }

  // A run from s: every step is enabled where it is taken.
  predicate Run(s: State, steps: seq<Step>)
    decreases |steps|
  {
    steps == [] || (Enabled(s, steps[0]) && Run(Apply(s, steps[0]), steps[1..]))
  }

  function After(s: State, steps: seq<Step>): State
    requires Run(s, steps)
    decreases |steps|
  {
    if steps == [] then s else After(Apply(s, steps[0]), steps[1..])
  }

  ghost predicate Reachable(s: State) {
    exists steps :: Run(INIT, steps) && After(INIT, steps) == s
  }
}
