/** The database the clients see, and why every run of it is a serial one. */
module Serializability {
  import opened Wrappers
  import opened Messages
  import opened Sessions
  import opened Tables
  import opened Protocol
  import opened Ownership

  // A table as the next transaction to lock it will find it: its committed map, overlaid with the
  // pending map when the owner has entered the commit loop.
  function View(s: State, t: TableId): Content
    requires t in s.tables
  {
    var e := s.tables[t];
    if e.owner.Some? && e.owner.value in s.conns && s.conns[e.owner.value].phase.Committing?
    then e.committed + e.pending
    else e.committed
  }

  function AbstractDb(s: State): Db {
    map n | n in s.registry && s.registry[n] in s.tables :: View(s, s.registry[n])
  }

  // All of a log's writes at once.
  function Overlay(db: Db, log: seq<Event>): Db {
    map n | n in db :: db[n] + Writes(log, n)
  }

  // The whole effect of a step on the database.
  function DbEffect(s: State, step: Step): Db
    requires Enabled(s, step)
  {
    var db := AbstractDb(s);
    match step
    case Arrive(c, line) =>
      if Receive(s.conns[c], line).phase.Committing? then Overlay(db, s.conns[c].log) else db
    case UseRegistry(c, _) =>
      var job := s.conns[c].phase.job;
      if job.CreateJob? && job.name !in db then db[job.name := map[]] else db
    case AutoFlush(c) =>
      var job := s.conns[c].phase.job;
      if job.name in db then db[job.name := db[job.name][job.key := job.value]] else db
    case _ => db
  }

  // ---- a commit that is not one step looks atomic

  lemma DbOf(s: State, n: string)
    requires Inv(s)
    ensures n in AbstractDb(s) <==> n in s.registry
    ensures n in s.registry ==> s.registry[n] in s.tables && AbstractDb(s)[n] == View(s, s.registry[n])
  {
    assert n in s.registry ==> TableNamed(s, s.registry[n], n);
  }

  // Two states with the same registry and the same views have the same database.
  lemma SameViews(s: State, s': State)
    requires s'.registry == s.registry && s'.tables.Keys == s.tables.Keys
    requires forall t :: t in s.tables ==> View(s', t) == View(s, t)
    ensures AbstractDb(s') == AbstractDb(s)
  {
  }

  // A view is decided by the table, its owner and whether the owner is committing.
  lemma ViewKept(s: State, s': State, c: Conn, t: TableId)
    requires Inv(s) && c in s.conns && c in s'.conns
    requires s'.conns.Keys == s.conns.Keys && (forall d :: d in s.conns && d != c ==> s'.conns[d] == s.conns[d])
    requires t in s.tables && t in s'.tables && s'.tables[t] == s.tables[t]
    requires s'.conns[c].phase.Committing? == s.conns[c].phase.Committing? || s.tables[t].owner != Some(c)
    ensures View(s', t) == View(s, t)
  {
    assert TableInv(s, t);
  }

  lemma CommitBegins(s: State, c: Conn, line: string)
    requires Inv(s) && Enabled(s, Arrive(c, line)) && Receive(s.conns[c], line).phase.Committing?
    ensures AbstractDb(ApplyArrive(s, c, line)) == Overlay(AbstractDb(s), s.conns[c].log)
  {
    var s' := ApplyArrive(s, c, line);
    var k := s.conns[c];
    assert ConnInv(s, c);
    forall n | n in s.registry
      ensures s.registry[n] in s.tables && View(s', s.registry[n]) == View(s, s.registry[n]) + Writes(k.log, n)
    {
      var t := s.registry[n];
      assert TableNamed(s, t, n) && TableInv(s, t);
      if s.tables[t].owner == Some(c) {
        assert t in Held(k);
      } else {
        assert t !in k.locked;
        NothingWritten(s, k, t);
        ViewKept(s, s', c, t);
      }
    }
  }

  lemma ArriveEffect(s: State, c: Conn, line: string)
    requires Inv(s) && Enabled(s, Arrive(c, line))
    ensures AbstractDb(ApplyArrive(s, c, line)) == DbEffect(s, Arrive(c, line))
  {
    if Receive(s.conns[c], line).phase.Committing? {
      CommitBegins(s, c, line);
    } else {
      var s' := ApplyArrive(s, c, line);
      forall t | t in s.tables
        ensures View(s', t) == View(s, t)
      {
        ViewKept(s, s', c, t);
      }
      SameViews(s, s');
    }
  }

  lemma CreateEffect(s: State, c: Conn, newId: TableId)
    requires Inv(s) && Enabled(s, UseRegistry(c, newId))
    ensures AbstractDb(ApplyUseRegistry(s, c, newId)) == DbEffect(s, UseRegistry(c, newId))
  {
    hide ConnInv, Receive;
    var s' := ApplyUseRegistry(s, c, newId);
    var job := s.conns[c].phase.job;
    DbOf(s, job.name);
    forall n | n in s.registry
      ensures s.registry[n] in s.tables && View(s', s.registry[n]) == View(s, s.registry[n])
    {
      assert TableNamed(s, s.registry[n], n);
      ViewKept(s, s', c, s.registry[n]);
    }
  }

  lemma AutoFlushEffect(s: State, c: Conn)
    requires Inv(s) && Enabled(s, AutoFlush(c))
    ensures AbstractDb(ApplyAutoFlush(s, c)) == DbEffect(s, AutoFlush(c))
  {
    var s' := ApplyAutoFlush(s, c);
    var k := s.conns[c];
    var t, job := k.phase.t, k.phase.job;
    assert ConnInv(s, c) && t in Held(k) && TableInv(s, t);
    DbOf(s, job.name);
    assert View(s, t) == s.tables[t].committed;
    assert View(s', t) == s.tables[t].committed[job.key := job.value];
    assert s.registry[job.name] == t;
    forall n | n in s.registry && n != job.name
      ensures s.registry[n] in s.tables && View(s', s.registry[n]) == View(s, s.registry[n])
    {
      assert TableNamed(s, s.registry[n], n);
      ViewKept(s, s', c, s.registry[n]);
    }
    assert AbstractDb(s') == AbstractDb(s)[job.name := s.tables[t].committed[job.key := job.value]];
  }

  // Steps inside a commit or rollback loop: the committed map may change, the view does not.
  lemma LoopEffect(s: State, step: Step)
    requires Inv(s) && Enabled(s, step)
    requires step.CommitOne? || step.CommitUnlock? || step.AbortOne? || step.AbortUnlock?
    ensures AbstractDb(Apply(s, step)) == AbstractDb(s)
  {
    hide Receive;
    var s' := Apply(s, step);
    var k := s.conns[step.c];
    var t := if step.CommitOne? || step.AbortOne? then step.t else k.phase.at.value;
    assert ConnInv(s, step.c) && t in Held(k) && TableInv(s, t);
    forall u | u in s.tables
      ensures View(s', u) == View(s, u)
    {
      if u != t {
        ViewKept(s, s', step.c, u);
      }
    }
    SameViews(s, s');
  }

  lemma LoopEndEffect(s: State, step: Step)
    requires Inv(s) && Enabled(s, step) && (step.CommitDone? || step.AbortDone?)
    ensures AbstractDb(Apply(s, step)) == AbstractDb(s)
  {
    var s' := Apply(s, step);
    assert ConnInv(s, step.c);
    forall t | t in s.tables
      ensures View(s', t) == View(s, t)
    {
      assert TableInv(s, t);
      ViewKept(s, s', step.c, t);
    }
    SameViews(s, s');
  }

  // A step that changes one table's pending map or owner, free or held by a connection that is not
  // in its commit loop.
  lemma QuietTable(s: State, s': State, c: Conn, t: TableId)
    requires Inv(s) && c in s.conns && c in s'.conns && t in s.tables && t in s'.tables
    requires s'.registry == s.registry && s'.conns == s.conns[c := s'.conns[c]]
    requires s'.tables == s.tables[t := s'.tables[t]] && s'.tables[t].committed == s.tables[t].committed
    requires Mine(s.tables[t].owner, c) && Mine(s'.tables[t].owner, c)
    requires !s.conns[c].phase.Committing? && !s'.conns[c].phase.Committing?
    ensures AbstractDb(s') == AbstractDb(s)
  {
    forall u | u in s.tables
      ensures View(s', u) == View(s, u)
    {
      if u != t {
        ViewKept(s, s', c, u);
      }
    }
    SameViews(s, s');
  }

  // A step that changes the connection, or nothing but the registry's owner besides.
  lemma QuietConn(s: State, s': State, c: Conn)
    requires Inv(s) && c in s.conns && c in s'.conns
    requires s'.registry == s.registry && s'.conns == s.conns[c := s'.conns[c]] && s'.tables == s.tables
    requires !s.conns[c].phase.Committing? && !s'.conns[c].phase.Committing?
    ensures AbstractDb(s') == AbstractDb(s)
  {
    forall t | t in s.tables
      ensures View(s', t) == View(s, t)
    {
      ViewKept(s, s', c, t);
    }
    SameViews(s, s');
  }

  lemma RegistryEffect(s: State, step: Step)
    requires Inv(s) && Enabled(s, step) && (step.TakeRegistry? || step.DropRegistry?)
    ensures AbstractDb(Apply(s, step)) == AbstractDb(s)
  {
    QuietConn(s, Apply(s, step), step.c);
  }

  lemma TryTableEffect(s: State, c: Conn)
    requires Inv(s) && Enabled(s, TryTable(c))
    ensures AbstractDb(ApplyTryTable(s, c)) == AbstractDb(s)
  {
    var k := s.conns[c];
    if k.phase.t !in k.locked && s.tables[k.phase.t].owner.None? {
      QuietTable(s, ApplyTryTable(s, c), c, k.phase.t);
    } else {
      QuietConn(s, ApplyTryTable(s, c), c);
    }
  }

  lemma AccessEffect(s: State, c: Conn)
    requires Inv(s) && Enabled(s, Access(c))
    ensures AbstractDb(ApplyAccess(s, c)) == AbstractDb(s)
  {
    var k := s.conns[c];
    assert ConnInv(s, c) && k.phase.t in Held(k);
    if k.phase.job.SetJob? {
      QuietTable(s, ApplyAccess(s, c), c, k.phase.t);
    } else {
      QuietConn(s, ApplyAccess(s, c), c);
    }
  }

  lemma AutoAccessEffect(s: State, c: Conn)
    requires Inv(s) && Enabled(s, AutoAccess(c))
    ensures AbstractDb(ApplyAutoAccess(s, c)) == AbstractDb(s)
  {
    var k := s.conns[c];
    assert ConnInv(s, c) && k.phase.t in Held(k);
    if k.phase.job.SetJob? {
      QuietTable(s, ApplyAutoAccess(s, c), c, k.phase.t);
    } else {
      QuietConn(s, ApplyAutoAccess(s, c), c);
    }
  }

  lemma GuardEffect(s: State, step: Step)
    requires Inv(s) && Enabled(s, step) && (step.TakeTable? || step.DropTable?)
    ensures AbstractDb(Apply(s, step)) == AbstractDb(s)
  {
    var k := s.conns[step.c];
    assert ConnInv(s, step.c) && (step.DropTable? ==> k.phase.t in Held(k));
    QuietTable(s, Apply(s, step), step.c, k.phase.t);
  }

  // The database changes in three ways only: a COMMIT begins, with its whole write set at once; an
  // autocommit SET commits; a table is created. No other step of any interleaving changes it.
  lemma CommitLooksAtomic(s: State, step: Step)
    requires Inv(s) && Enabled(s, step)
    ensures AbstractDb(Apply(s, step)) == DbEffect(s, step)
  {
    match step
    case Connect(_) =>
      assert forall t :: t in s.tables ==> TableInv(s, t);
      SameViews(s, Apply(s, step));
    case Arrive(c, line) => ArriveEffect(s, c, line);
    case UseRegistry(c, newId) => CreateEffect(s, c, newId);
    case AutoFlush(c) => AutoFlushEffect(s, c);
    case CommitOne(_, _) => LoopEffect(s, step);
    case CommitUnlock(_) => LoopEffect(s, step);
    case AbortOne(_, _) => LoopEffect(s, step);
    case AbortUnlock(_) => LoopEffect(s, step);
    case CommitDone(_) => LoopEndEffect(s, step);
    case AbortDone(_) => LoopEndEffect(s, step);
    case TakeRegistry(_) => RegistryEffect(s, step);
    case DropRegistry(_) => RegistryEffect(s, step);
    case TryTable(c) => TryTableEffect(s, c);
    case Access(c) => AccessEffect(s, c);
    case AutoAccess(c) => AutoAccessEffect(s, c);
    case _ => GuardEffect(s, step);
  }

  // ---- the serial database

  // One access on a database of its own: a GET must see the result on record.
  function ExecEvent(db: Db, e: Event): Option<Db> {
    if e.table !in db then None
    else match e
      case Got(table, key, result) => if Lookup(db[table], key) == result then Some(db) else None
      case Put(table, key, value) => Some(db[table := db[table][key := value]])
  }

  // The accesses of a log one after the other.
  function Exec(db: Db, log: seq<Event>): Option<Db> {
    if log == [] then Some(db) else
      match Exec(db, log[..|log| - 1])
      case None => None
      case Some(before) => ExecEvent(before, log[|log| - 1])
  }

  function ExecItem(db: Db, item: Item): Option<Db> {
    match item
    case Created(table) => if table in db then None else Some(db[table := map[]])
    case Committed(_, log) => Exec(db, log)
  }

  // Whole transactions one after the other, from the empty database.
  function Serial(history: seq<Item>): Option<Db> {
    if history == [] then Some(map[]) else
      match Serial(history[..|history| - 1])
      case None => None
      case Some(before) => ExecItem(before, history[|history| - 1])
  }

  lemma ExecAppend(db: Db, log: seq<Event>, e: Event)
    ensures Exec(db, log + [e]) == match Exec(db, log) case None => None case Some(before) => ExecEvent(before, e)
  {
    assert (log + [e])[..|log|] == log;
  }

  lemma SerialAppend(history: seq<Item>, item: Item)
    ensures Serial(history + [item])
         == match Serial(history) case None => None case Some(before) => ExecItem(before, item)
  {
    assert (history + [item])[..|history|] == history;
  }

  // Executing a log event by event is the same as writing its last values at once.
  lemma {:induction false} ExecIsOverlay(db: Db, log: seq<Event>)
    requires Exec(db, log).Some?
    ensures Exec(db, log).value == Overlay(db, log)
  {
    if log == [] {
      assert forall n :: n in db ==> db[n] + map[] == db[n];
      assert Overlay(db, []) == db;
    } else {
      var prefix, e := log[..|log| - 1], log[|log| - 1];
      ExecIsOverlay(db, prefix);
      if e.Put? {
        var m, w := db[e.table], Writes(prefix, e.table);
        assert (m + w)[e.key := e.value] == m + w[e.key := e.value];
        assert Overlay(db, log) == Overlay(db, prefix)[e.table := (m + w)[e.key := e.value]];
      } else {
        assert Overlay(db, log) == Overlay(db, prefix);
      }
    }
  }

  // Two databases that agree on the tables a log mentions execute it alike.
  lemma {:induction false} ExecFrame(db: Db, db': Db, log: seq<Event>)
    requires Exec(db, log).Some?
    requires forall i :: 0 <= i < |log| ==>
             log[i].table in db && log[i].table in db' && db[log[i].table] == db'[log[i].table]
    ensures Exec(db', log).Some?
  {
    if log != [] {
      var prefix, e := log[..|log| - 1], log[|log| - 1];
      ExecFrame(db, db', prefix);
      ExecIsOverlay(db, prefix);
      ExecIsOverlay(db', prefix);
    }
  }

  // ---- every run is serial

  // A transaction that has not reached COMMIT could run now, by itself, and see what it saw.
  ghost predicate Repeatable(s: State, c: Conn)
    requires c in s.conns
  {
    var k := s.conns[c];
    k.sess.inTx && !k.phase.Committing? && !k.phase.RollingBack? ==> Exec(AbstractDb(s), k.log).Some?
  }

  ghost predicate SerialInv(s: State) {
    && Serial(s.history) == Some(AbstractDb(s))
    && forall c {:trigger Repeatable(s, c)} :: c in s.conns ==> Repeatable(s, c)
  }

  // The database keeps every table another open transaction has locked.
  lemma LockedTablesKept(s: State, step: Step, d: Conn)
    requires Inv(s) && Enabled(s, step) && d in s.conns && d != step.c
    requires s.conns[d].sess.inTx && !s.conns[d].phase.Committing? && !s.conns[d].phase.RollingBack?
    ensures var k := s.conns[d];
            forall i :: 0 <= i < |k.log| ==>
              && k.log[i].table in AbstractDb(s) && k.log[i].table in DbEffect(s, step)
              && DbEffect(s, step)[k.log[i].table] == AbstractDb(s)[k.log[i].table]
  {
    var k := s.conns[d];
    assert ConnInv(s, d);
    assert Held(k) == k.locked;
    forall i | 0 <= i < |k.log|
      ensures k.log[i].table in AbstractDb(s) && k.log[i].table in DbEffect(s, step)
      ensures DbEffect(s, step)[k.log[i].table] == AbstractDb(s)[k.log[i].table]
    {
      OwnedTableKept(s, step, d, k.log[i].table);
    }
  }

  lemma OwnedTableKept(s: State, step: Step, d: Conn, n: string)
    requires Inv(s) && Enabled(s, step) && d != step.c
    requires n in s.registry && s.registry[n] in s.tables && s.tables[s.registry[n]].owner == Some(d)
    ensures n in AbstractDb(s) && n in DbEffect(s, step) && DbEffect(s, step)[n] == AbstractDb(s)[n]
  {
    var t := s.registry[n];
    DbOf(s, n);
    assert TableNamed(s, t, n) && TableInv(s, t);
    if step.Arrive? || step.AutoFlush? {
      var k := s.conns[step.c];
      assert ConnInv(s, step.c);
      assert t !in Held(k);
      if step.Arrive? {
        NothingWritten(s, k, t);
      } else {
        assert TableInv(s, k.phase.t);
      }
    }
  }

  lemma OthersRepeatable(s: State, step: Step, d: Conn)
    requires Inv(s) && SerialInv(s) && Enabled(s, step) && d in s.conns && d != step.c
    ensures d in Apply(s, step).conns && Repeatable(Apply(s, step), d)
  {
    var k := s.conns[d];
    CommitLooksAtomic(s, step);
    assert Repeatable(s, d);
    assert Apply(s, step).conns[d] == k;
    if k.sess.inTx && !k.phase.Committing? && !k.phase.RollingBack? {
      LockedTablesKept(s, step, d);
      ExecFrame(AbstractDb(s), AbstractDb(Apply(s, step)), k.log);
    }
  }

  // The record is of the request: its table, its key and its value.
  predicate OnRecord(job: Job, e: Event) {
    match job
    case CreateJob(_) => false
    case GetJob(name, key) => e.Got? && e.table == name && e.key == key
    case SetJob(name, key, value) => e == Put(name, key, value)
  }

  // What an access puts on record is what its client asked for, and what its client gets: a GET's
  // result on its stack, or the missing-key reply; a SET's value in the table.
  lemma RecordsAreFaithful(s: State, c: Conn)
    requires Enabled(s, Access(c))
    ensures var k, k', t := s.conns[c], ApplyAccess(s, c).conns[c], s.conns[c].phase.t;
            && |k'.log| == |k.log| + 1 && k'.log[..|k.log|] == k.log
            && OnRecord(k.phase.job, k'.log[|k.log|])
            && match k'.log[|k.log|]
               case Got(_, _, Some(v)) => k'.sess.stack == k.sess.stack + [v] && k'.replies == k.replies + [OK_REPLY]
               case Got(_, _, None) =>
                 k'.sess.stack == k.sess.stack && k'.replies == k.replies + [FailedReply(NO_SUCH_KEY)]
               case Put(_, key, value) =>
                 Visible(ApplyAccess(s, c).tables[t], key) == Some(value) && k'.replies == k.replies + [OK_REPLY]
  {
    var k := s.conns[c];
    assert forall e: Event :: (k.log + [e])[..|k.log|] == k.log;
  }

  // The same for a request outside a transaction, which is on record as a transaction of its own.
  lemma AutoRecordIsFaithful(s: State, step: Step)
    requires Inv(s) && Enabled(s, step)
    requires step.AutoFlush? || (step.AutoAccess? && s.conns[step.c].phase.job.GetJob?)
    ensures var k, s' := s.conns[step.c], Apply(s, step);
            var k', t, n := s'.conns[step.c], k.phase.t, |s.history|;
            && |s'.history| == n + 1 && s'.history[..n] == s.history
            && s'.history[n].Committed? && s'.history[n].conn == step.c && |s'.history[n].log| == 1
            && k'.phase.LeaveTable? && OnRecord(k.phase.job, s'.history[n].log[0])
            && match s'.history[n].log[0]
               case Got(_, _, Some(v)) => k'.sess.stack == k.sess.stack + [v] && k'.phase.reply == OK_REPLY
               case Got(_, _, None) => k'.sess.stack == k.sess.stack && k'.phase.reply == FailedReply(NO_SUCH_KEY)
               case Put(_, key, value) =>
                 s'.tables[t].committed == s.tables[t].committed[key := value] && k'.phase.reply == OK_REPLY
  {
    var k := s.conns[step.c];
    assert ConnInv(s, step.c) && k.phase.t in Held(k) && TableInv(s, k.phase.t);
    assert forall item: Item :: (s.history + [item])[..|s.history|] == s.history;
  }

  // A locked table shows its owner the database overlaid with the owner's own writes.
  lemma VisibleInTx(s: State, c: Conn, t: TableId, key: string)
    requires Inv(s) && SerialInv(s) && c in s.conns && t in s.tables
    requires s.conns[c].phase.InTable? && t in s.conns[c].locked
    ensures var k := s.conns[c];
            && Exec(AbstractDb(s), k.log).Some?
            && s.tables[t].name in Exec(AbstractDb(s), k.log).value
            && Lookup(Exec(AbstractDb(s), k.log).value[s.tables[t].name], key) == Visible(s.tables[t], key)
  {
    var k := s.conns[c];
    assert ConnInv(s, c) && TableInv(s, t) && Repeatable(s, c);
    assert t in Held(k);
    ExecIsOverlay(AbstractDb(s), k.log);
    DbOf(s, s.tables[t].name);
  }

  lemma AccessRepeatable(s: State, c: Conn)
    requires Inv(s) && SerialInv(s) && Enabled(s, Access(c))
    ensures Repeatable(ApplyAccess(s, c), c)
  {
    var k, s' := s.conns[c], ApplyAccess(s, c);
    var job := k.phase.job;
    assert ConnInv(s, c);
    CommitLooksAtomic(s, Access(c));
    VisibleInTx(s, c, k.phase.t, job.key);
    ExecAppend(AbstractDb(s), k.log, s'.conns[c].log[|k.log|]);
    assert s'.conns[c].log == k.log + [s'.conns[c].log[|k.log|]];
  }

  lemma OwnRepeatable(s: State, step: Step)
    requires Inv(s) && SerialInv(s) && Enabled(s, step)
    ensures step.c in Apply(s, step).conns && Repeatable(Apply(s, step), step.c)
  {
    var c, s' := step.c, Apply(s, step);
    if step.Access? {
      AccessRepeatable(s, c);
    } else if !step.Connect? {
      var k, k' := s.conns[c], s'.conns[c];
      assert ConnInv(s, c) && Repeatable(s, c);
      CommitLooksAtomic(s, step);
      if k'.sess.inTx && !k'.phase.Committing? && !k'.phase.RollingBack? {
        OwnLogKept(s, step);
        if step.UseRegistry? {
          forall i | 0 <= i < |k.log|
            ensures k.log[i].table in AbstractDb(s)
                    && DbEffect(s, step)[k.log[i].table] == AbstractDb(s)[k.log[i].table]
          {
            DbOf(s, k.log[i].table);
          }
          ExecFrame(AbstractDb(s), AbstractDb(s'), k.log);
        }
      }
    }
  }

  // A step that leaves the transaction open, other than an access, keeps its log; only a CREATE
  // among those changes the database.
  lemma OwnLogKept(s: State, step: Step)
    requires Inv(s) && Enabled(s, step) && !step.Connect? && !step.Access?
    requires var k' := Apply(s, step).conns[step.c];
             k'.sess.inTx && !k'.phase.Committing? && !k'.phase.RollingBack?
    ensures var k, k' := s.conns[step.c], Apply(s, step).conns[step.c];
            && k'.log == k.log
            && !k.phase.Committing? && !k.phase.RollingBack?
            && (k.log != [] ==> k.sess.inTx)
            && (step.UseRegistry? || DbEffect(s, step) == AbstractDb(s))
  {
    assert ConnInv(s, step.c);
    if step.Arrive? {
      ReceiveShape(s.conns[step.c], step.line);
    }
  }

  // ---- the history

  lemma HistoryAtCommit(s: State, c: Conn, line: string)
    requires Inv(s) && SerialInv(s) && Enabled(s, Arrive(c, line))
    ensures Serial(ApplyArrive(s, c, line).history) == Some(DbEffect(s, Arrive(c, line)))
  {
    var k := s.conns[c];
    assert ConnInv(s, c) && Repeatable(s, c);
    ReceiveShape(k, line);
    if Receive(k, line).phase.Committing? {
      SerialAppend(s.history, Committed(c, k.log));
      assert k.sess.inTx by {
        CommitOnlyInTx(k, line);
      }
      ExecIsOverlay(AbstractDb(s), k.log);
    }
  }

  lemma CommitOnlyInTx(k: Connection, line: string)
    requires k.phase.Idle? && Receive(k, line).phase.Committing?
    ensures k.sess.inTx
  {
    DispatchShape(k.sess, line);
  }

  lemma HistoryAtCreate(s: State, c: Conn, newId: TableId)
    requires Inv(s) && SerialInv(s) && Enabled(s, UseRegistry(c, newId))
    ensures Serial(ApplyUseRegistry(s, c, newId).history) == Some(DbEffect(s, UseRegistry(c, newId)))
  {
    var job := s.conns[c].phase.job;
    DbOf(s, job.name);
    SerialAppend(s.history, Created(job.name));
  }

  lemma ExecOne(db: Db, e: Event)
    ensures Exec(db, [e]) == ExecEvent(db, e)
  {
    ExecAppend(db, [], e);
    assert [] + [e] == [e];
  }

  lemma HistoryAtAuto(s: State, step: Step)
    requires Inv(s) && SerialInv(s) && Enabled(s, step) && (step.AutoAccess? || step.AutoFlush?)
    ensures Serial(Apply(s, step).history) == Some(DbEffect(s, step))
  {
    var k, s' := s.conns[step.c], Apply(s, step);
    var t := k.phase.t;
    assert ConnInv(s, step.c) && t in Held(k) && TableInv(s, t);
    DbOf(s, s.tables[t].name);
    if |s'.history| > |s.history| {
      var item := s'.history[|s.history|];
      assert s'.history == s.history + [item];
      SerialAppend(s.history, item);
      ExecOne(AbstractDb(s), item.log[0]);
      assert item.log == [item.log[0]];
    }
  }

  lemma StepKeepsSerial(s: State, step: Step)
    requires Inv(s) && SerialInv(s) && Enabled(s, step)
    ensures SerialInv(Apply(s, step))
  {
    var s' := Apply(s, step);
    CommitLooksAtomic(s, step);
    assert Serial(s'.history) == Some(DbEffect(s, step)) by {
      match step
      case Arrive(c, line) => HistoryAtCommit(s, c, line);
      case UseRegistry(c, newId) => HistoryAtCreate(s, c, newId);
      case AutoAccess(_) => HistoryAtAuto(s, step);
      case AutoFlush(_) => HistoryAtAuto(s, step);
      case _ => assert s'.history == s.history;
    }
    forall d | d in s'.conns
      ensures Repeatable(s', d)
    {
      if d == step.c {
        OwnRepeatable(s, step);
      } else {
        OthersRepeatable(s, step, d);
      }
    }
  }

  lemma {:induction false} RunKeepsSerial(s: State, steps: seq<Step>)
    requires Inv(s) && SerialInv(s) && Run(s, steps)
    ensures Inv(After(s, steps)) && SerialInv(After(s, steps))
    decreases |steps|
  {
    if steps != [] {
      StepKeepsInv(s, steps[0]);
      StepKeepsSerial(s, steps[0]);
      RunKeepsSerial(Apply(s, steps[0]), steps[1..]);
    }
  }

  lemma ReachableSerial(s: State)
    requires Reachable(s)
    ensures SerialInv(s)
  {
    var steps :| Run(INIT, steps) && After(INIT, steps) == s;
    assert AbstractDb(INIT) == map[];
    RunKeepsSerial(INIT, steps);
  }

  // In every reachable state the database is what the committed transactions produce when they run
  // one at a time, in the order their COMMITs began, and every GET they did sees the same result.
  lemma EveryRunIsSerial(s: State)
    requires Reachable(s)
    ensures Serial(s.history) == Some(AbstractDb(s))
  {
    ReachableSerial(s);
  }
}
