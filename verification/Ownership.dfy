/** Who owns what: the invariant every step of every interleaving keeps. */
module Ownership {
  import opened Wrappers
  import opened Messages
  import opened Sessions
  import opened Tables
  import opened Protocol

  // The table mutexes a connection's thread holds at this point of its code.
  function Held(k: Connection): set<TableId> {
    match k.phase
    case HoldTable(_, t) => {t}
    case FlushTable(_, t) => {t}
    case LeaveTable(t, _) => {t}
    case Committing(left, _) => left
    case RollingBack(left, _, _) => left
    case _ => k.locked
  }

  predicate HoldsRegistry(k: Connection) {
    k.phase.HoldRegistry? || k.phase.LeaveRegistry?
  }

  // The last value a log writes to each key of a table.
  function Writes(log: seq<Event>, name: string): Content {
    if log == [] then map[] else
      var before := Writes(log[..|log| - 1], name);
      var e := log[|log| - 1];
      if e.Put? && e.table == name then before[e.key := e.value] else before
  }

  // What a held table's pending map must be.
  function Unsaved(k: Connection, t: TableId, name: string): Content {
    match k.phase
    case HoldTable(_, _) => map[]
    case FlushTable(job, _) => if job.SetJob? then map[job.key := job.value] else map[]
    case LeaveTable(_, _) => map[]
    case Committing(_, at) => if at == Some(t) then map[] else Writes(k.log, name)
    case RollingBack(_, at, _) => if at == Some(t) then map[] else Writes(k.log, name)
    case _ => Writes(k.log, name)
  }

  predicate PhaseOk(k: Connection) {
    && (!k.sess.inTx ==> k.locked == {} && k.log == [])
    && (k.sess.inTx ==> k.sess.loggedIn)
    && match k.phase
       case LeaveRegistry(job, outcome) => job.CreateJob? <==> outcome.Made? || outcome.Duplicate?
       case AtTable(job, _) => k.sess.inTx && !job.CreateJob?
       case InTable(job, t) => k.sess.inTx && !job.CreateJob? && t in k.locked
       case WantTable(job, _) => !k.sess.inTx && !job.CreateJob?
       case HoldTable(job, _) => !k.sess.inTx && !job.CreateJob?
       case FlushTable(job, _) => !k.sess.inTx && job.SetJob?
       case LeaveTable(_, _) => !k.sess.inTx
       case Committing(left, at) => k.sess.inTx && left <= k.locked && (at.Some? ==> at.value in left)
       case RollingBack(left, at, _) => k.sess.inTx && left <= k.locked && (at.Some? ==> at.value in left)
       case Closed => !k.sess.inTx
       case _ => true
  }

  // The table a job is at is the one the registry names.
  ghost predicate JobOk(s: State, k: Connection) {
    match k.phase
    case LeaveRegistry(job, Found(t)) => TableNamed(s, t, job.name)
    case AtTable(job, t) => TableNamed(s, t, job.name)
    case InTable(job, t) => TableNamed(s, t, job.name)
    case WantTable(job, t) => TableNamed(s, t, job.name)
    case HoldTable(job, t) => TableNamed(s, t, job.name)
    case FlushTable(job, t) => TableNamed(s, t, job.name)
    case _ => true
  }

  ghost predicate TableNamed(s: State, t: TableId, name: string) {
    t in s.tables && s.tables[t].name == name
  }

  // A transaction only ever touched tables it has locked.
  ghost predicate LogOk(s: State, k: Connection) {
    forall i :: 0 <= i < |k.log| ==> k.log[i].table in s.registry && s.registry[k.log[i].table] in k.locked
  }

  ghost predicate HeldOk(s: State, c: Conn, k: Connection) {
    forall t :: t in Held(k) ==> t in s.tables && s.tables[t].owner == Some(c)
  }

  ghost predicate ConnInv(s: State, c: Conn)
    requires c in s.conns
  {
    var k := s.conns[c];
    && PhaseOk(k) && JobOk(s, k) && LogOk(s, k) && HeldOk(s, c, k)
    && (HoldsRegistry(k) <==> s.registryOwner == Some(c))
  }

  ghost predicate TableInv(s: State, t: TableId)
    requires t in s.tables
  {
    var e := s.tables[t];
    && e.name in s.registry && s.registry[e.name] == t
    && match e.owner
       case None => e.pending == map[]
       case Some(c) =>
         && c in s.conns && t in Held(s.conns[c])
         && e.pending == Unsaved(s.conns[c], t, e.name)
  }

  ghost predicate RegistryInv(s: State) {
    && (forall n :: n in s.registry ==> TableNamed(s, s.registry[n], n))
    && (s.registryOwner.Some? ==> s.registryOwner.value in s.conns)
  }

  ghost predicate Inv(s: State) {
    && RegistryInv(s)
    && (forall c {:trigger ConnInv(s, c)} :: c in s.conns ==> ConnInv(s, c))
    && (forall t {:trigger TableInv(s, t)} :: t in s.tables ==> TableInv(s, t))
  }

  // ---- what a step of c leaves alone

  predicate Mine(owner: Option<Conn>, c: Conn) {
    owner.None? || owner == Some(c)
  }

  ghost predicate OnlyOwn(s: State, s': State, c: Conn) {
    && (forall d :: d != c ==> (d in s.conns <==> d in s'.conns))
    && (forall d :: d != c && d in s.conns ==> s'.conns[d] == s.conns[d])
    && c in s'.conns
    && (forall n :: n in s.registry ==> n in s'.registry && s'.registry[n] == s.registry[n])
    && (forall t :: t in s.tables ==> t in s'.tables && s'.tables[t].name == s.tables[t].name)
    && (forall t :: t in s.tables && s'.tables[t] != s.tables[t] ==>
          Mine(s.tables[t].owner, c) && Mine(s'.tables[t].owner, c))
    && (forall t :: t in s'.tables && t !in s.tables ==> s'.tables[t].owner.None?)
    && (s'.registryOwner == s.registryOwner || (Mine(s.registryOwner, c) && Mine(s'.registryOwner, c)))
  }

  lemma OthersKeepConn(s: State, s': State, c: Conn, d: Conn)
    requires Inv(s) && OnlyOwn(s, s', c) && d != c && d in s.conns
    ensures ConnInv(s', d)
  {
    var k := s.conns[d];
    assert ConnInv(s, d);
    forall t | t in Held(k)
      ensures t in s'.tables && s'.tables[t].owner == Some(d)
    {
      assert s.tables[t].owner == Some(d);
      assert s'.tables[t] == s.tables[t];
    }
  }

  lemma OthersKeepTable(s: State, s': State, c: Conn, t: TableId)
    requires Inv(s) && OnlyOwn(s, s', c) && t in s'.tables && !Mine(s'.tables[t].owner, c)
    ensures TableInv(s', t)
  {
    assert t in s.tables;
    assert s'.tables[t] == s.tables[t];
    assert TableInv(s, t);
  }

  // What is left to show of a step of c: c itself, the registry, and tables free or owned by c.
  ghost predicate OwnInv(s: State, c: Conn) {
    && RegistryInv(s)
    && c in s.conns && ConnInv(s, c)
    && (forall t :: t in s.tables && Mine(s.tables[t].owner, c) ==> TableInv(s, t))
  }

  lemma Combine(s: State, s': State, c: Conn)
    requires Inv(s) && OnlyOwn(s, s', c) && OwnInv(s', c)
    ensures Inv(s')
  {
    forall d | d in s'.conns
      ensures ConnInv(s', d)
    {
      if d != c {
        OthersKeepConn(s, s', c, d);
      }
    }
    forall t | t in s'.tables
      ensures TableInv(s', t)
    {
      if !Mine(s'.tables[t].owner, c) {
        OthersKeepTable(s, s', c, t);
      }
    }
  }

  lemma WritesAppend(log: seq<Event>, e: Event, name: string)
    ensures Writes(log + [e], name)
         == if e.Put? && e.table == name then Writes(log, name)[e.key := e.value] else Writes(log, name)
  {
    assert (log + [e])[..|log|] == log;
  }

  // A log writes nothing to a table it does not mention.
  lemma {:induction false} WritesElsewhere(log: seq<Event>, name: string)
    requires forall i :: 0 <= i < |log| ==> log[i].table != name
    ensures Writes(log, name) == map[]
  {
    if log != [] {
      WritesElsewhere(log[..|log| - 1], name);
    }
  }

  // A table the transaction has not locked has nothing of it pending.
  lemma NothingWritten(s: State, k: Connection, t: TableId)
    requires RegistryInv(s) && LogOk(s, k) && t in s.tables && t !in k.locked
    requires s.tables[t].name in s.registry && s.registry[s.tables[t].name] == t
    ensures Writes(k.log, s.tables[t].name) == map[]
  {
    forall i | 0 <= i < |k.log|
      ensures k.log[i].table != s.tables[t].name
    {
      assert s.registry[k.log[i].table] in k.locked;
    }
    WritesElsewhere(k.log, s.tables[t].name);
  }

  // ---- the steps

  // The entry of a table that c may have changed fits c's new phase.
  predicate EntryOk(e: TableState, k: Connection, t: TableId, c: Conn) {
    match e.owner
    case None => t !in Held(k) && e.pending == map[]
    case Some(d) => d == c && t in Held(k) && e.pending == Unsaved(k, t, e.name)
  }

  // The new connection holds what it held before, with the same writes pending, t aside.
  ghost predicate SameHeld(s: State, k: Connection, k': Connection, t: Option<TableId>) {
    forall u :: u in s.tables && t != Some(u) ==>
      && (u in Held(k') <==> u in Held(k))
      && (u in Held(k) ==> Unsaved(k', u, s.tables[u].name) == Unsaved(k, u, s.tables[u].name))
  }

  // A step that changes c's connection only.
  lemma ConnStep(s: State, c: Conn, k': Connection, owner: Option<Conn>)
    requires Inv(s) && c in s.conns
    requires PhaseOk(k') && JobOk(s, k') && LogOk(s, k')
    requires Held(k') <= Held(s.conns[c]) && SameHeld(s, s.conns[c], k', None)
    requires if owner == s.registryOwner then HoldsRegistry(k') == HoldsRegistry(s.conns[c])
             else Mine(s.registryOwner, c) && Mine(owner, c) && (HoldsRegistry(k') <==> owner == Some(c))
    ensures Inv(SetConn(s, c, k').(registryOwner := owner))
  {
    var s' := SetConn(s, c, k').(registryOwner := owner);
    assert ConnInv(s, c);
    forall t | t in s.tables && Mine(s.tables[t].owner, c)
      ensures TableInv(s', t)
    {
      assert TableInv(s, t);
    }
    Combine(s, s', c);
  }

  // A step that changes c's connection and one table, free or owned by c.
  lemma TableStep(s: State, c: Conn, k': Connection, t: TableId, e: TableState)
    requires Inv(s) && c in s.conns && t in s.tables
    requires Mine(s.tables[t].owner, c) && e.name == s.tables[t].name
    requires PhaseOk(k') && JobOk(s, k') && LogOk(s, k')
    requires EntryOk(e, k', t, c) && Held(k') <= Held(s.conns[c]) + {t}
    requires SameHeld(s, s.conns[c], k', Some(t))
    requires HoldsRegistry(k') == HoldsRegistry(s.conns[c])
    ensures Inv(SetBoth(s, c, k', t, e))
  {
    var s' := SetBoth(s, c, k', t, e);
    StepConn(s, c, k', t, e);
    forall u | u in s'.tables && Mine(s'.tables[u].owner, c)
      ensures TableInv(s', u)
    {
      if u == t {
        StepEntry(s, c, k', t, e);
      } else {
        OtherEntry(s, c, k', t, e, u);
      }
    }
    hide ConnInv, TableInv;
    Combine(s, s', c);
  }

  lemma StepConn(s: State, c: Conn, k': Connection, t: TableId, e: TableState)
    requires Inv(s) && c in s.conns && t in s.tables && e.name == s.tables[t].name
    requires PhaseOk(k') && JobOk(s, k') && LogOk(s, k')
    requires EntryOk(e, k', t, c) && Held(k') <= Held(s.conns[c]) + {t}
    requires HoldsRegistry(k') == HoldsRegistry(s.conns[c])
    ensures ConnInv(SetBoth(s, c, k', t, e), c)
  {
    hide TableInv, Unsaved;
    assert ConnInv(s, c);
  }

  lemma StepEntry(s: State, c: Conn, k': Connection, t: TableId, e: TableState)
    requires Inv(s) && c in s.conns && t in s.tables && e.name == s.tables[t].name && EntryOk(e, k', t, c)
    ensures TableInv(SetBoth(s, c, k', t, e), t)
  {
    hide ConnInv, Unsaved, Held;
    assert TableInv(s, t);
  }

  lemma OtherEntry(s: State, c: Conn, k': Connection, t: TableId, e: TableState, u: TableId)
    requires Inv(s) && c in s.conns && t in s.tables && u in s.tables && u != t && Mine(s.tables[u].owner, c)
    requires SameHeld(s, s.conns[c], k', Some(t))
    ensures TableInv(SetBoth(s, c, k', t, e), u)
  {
    hide ConnInv, Unsaved, Held;
    assert TableInv(s, u);
  }

  // The history plays no part in ownership.
  lemma HistoryIsFree(s: State, history: seq<Item>)
    requires Inv(s)
    ensures Inv(s.(history := history))
  {
    var s' := s.(history := history);
    forall c | c in s'.conns
      ensures ConnInv(s', c)
    {
      assert ConnInv(s, c);
    }
    forall t | t in s'.tables
      ensures TableInv(s', t)
    {
      assert TableInv(s, t);
    }
  }

  lemma ConnectKeeps(s: State, c: Conn)
    requires Inv(s) && c !in s.conns
    ensures Inv(SetConn(s, c, FRESH))
  {
    var s' := SetConn(s, c, FRESH);
    assert forall t :: t in s.tables ==> TableInv(s, t);
    Combine(s, s', c);
  }

  lemma ArriveKeeps(s: State, c: Conn, line: string)
    requires Inv(s) && Enabled(s, Arrive(c, line))
    ensures Inv(ApplyArrive(s, c, line))
  {
    var k := s.conns[c];
    assert ConnInv(s, c);
    ReceiveShape(k, line);
    ConnStep(s, c, Receive(k, line), s.registryOwner);
    HistoryIsFree(SetConn(s, c, Receive(k, line)), ApplyArrive(s, c, line).history);
  }

  // A request changes the phase and the private session only; BEGIN opens a transaction.
  lemma ReceiveShape(k: Connection, line: string)
    requires k.phase.Idle? && PhaseOk(k)
    ensures var k' := Receive(k, line);
            && k'.locked == k.locked && k'.log == k.log && PhaseOk(k')
            && (k.sess.inTx ==> k'.sess.inTx)
            && (k'.phase.Idle? || k'.phase.WantRegistry? || k'.phase.Closed?
                || (k'.phase.Committing? && k'.phase.left == k.locked && k'.phase.at.None?)
                || (k'.phase.RollingBack? && k'.phase.left == k.locked && k'.phase.at.None?))
  {
    if line != [] {
      DispatchShape(k.sess, line);
    }
  }

  lemma TakeRegistryKeeps(s: State, c: Conn)
    requires Inv(s) && Enabled(s, TakeRegistry(c))
    ensures Inv(Apply(s, TakeRegistry(c)))
  {
    var k := s.conns[c];
    assert ConnInv(s, c);
    ConnStep(s, c, k.(phase := HoldRegistry(k.phase.job)), Some(c));
  }

  lemma DropRegistryKeeps(s: State, c: Conn)
    requires Inv(s) && Enabled(s, DropRegistry(c))
    ensures Inv(Apply(s, DropRegistry(c)))
  {
    var k := s.conns[c];
    assert ConnInv(s, c);
    ConnStep(s, c, Leaving(k, k.phase.job, k.phase.outcome), None);
  }

  lemma LookupKeeps(s: State, c: Conn, newId: TableId)
    requires Inv(s) && Enabled(s, UseRegistry(c, newId))
    requires !s.conns[c].phase.job.CreateJob? || s.conns[c].phase.job.name in s.registry
    ensures Inv(ApplyUseRegistry(s, c, newId))
  {
    assert ConnInv(s, c);
    ConnStep(s, c, ApplyUseRegistry(s, c, newId).conns[c], s.registryOwner);
  }

  lemma CreateKeeps(s: State, c: Conn, newId: TableId)
    requires Inv(s) && Enabled(s, UseRegistry(c, newId))
    requires s.conns[c].phase.job.CreateJob? && s.conns[c].phase.job.name !in s.registry
    ensures Inv(ApplyUseRegistry(s, c, newId))
  {
    var s' := ApplyUseRegistry(s, c, newId);
    var k := s.conns[c];
    assert ConnInv(s, c);
    assert HeldOk(s', c, s'.conns[c]);
    forall t | t in s'.tables && Mine(s'.tables[t].owner, c)
      ensures TableInv(s', t)
    {
      assert t in s.tables ==> TableInv(s, t);
    }
    Combine(s, s', c);
  }

  lemma TryTableKeeps(s: State, c: Conn)
    requires Inv(s) && Enabled(s, TryTable(c))
    ensures Inv(ApplyTryTable(s, c))
  {
    var k := s.conns[c];
    var t := k.phase.t;
    var k' := ApplyTryTable(s, c).conns[c];
    assert ConnInv(s, c) && TableInv(s, t);
    if t !in k.locked && s.tables[t].owner.None? {
      NothingWritten(s, k, t);
      TableStep(s, c, k', t, Locked(s.tables[t], c));
    } else {
      ConnStep(s, c, k', s.registryOwner);
    }
  }

  // The writes to table u once e, an access to table t, is logged.
  function WritesWith(s: State, log: seq<Event>, e: Event, t: TableId, u: TableId): Content
    requires u in s.tables
  {
    var before := Writes(log, s.tables[u].name);
    if e.Put? && u == t then before[e.key := e.value] else before
  }

  // A logged GET leaves the pending maps to expect alone; a logged SET adds its entry to one.
  lemma LogKeepsUnsaved(s: State, log: seq<Event>, e: Event, t: TableId)
    requires Inv(s) && t in s.tables && e.table == s.tables[t].name
    ensures forall u :: u in s.tables ==> Writes(log + [e], s.tables[u].name) == WritesWith(s, log, e, t, u)
  {
    forall u | u in s.tables
      ensures Writes(log + [e], s.tables[u].name) == WritesWith(s, log, e, t, u)
    {
      assert TableInv(s, u) && TableInv(s, t);
      WritesAppend(log, e, s.tables[u].name);
    }
  }

  lemma GetKeeps(s: State, c: Conn)
    requires Inv(s) && Enabled(s, Access(c)) && s.conns[c].phase.job.GetJob?
    ensures Inv(ApplyAccess(s, c))
  {
    var k, k' := s.conns[c], ApplyAccess(s, c).conns[c];
    assert ConnInv(s, c) && TableInv(s, k.phase.t);
    var e := k'.log[|k.log|];
    assert k'.log == k.log + [e];
    LogKeepsUnsaved(s, k.log, e, k.phase.t);
    ConnStep(s, c, k', s.registryOwner);
  }

  lemma SetKeeps(s: State, c: Conn)
    requires Inv(s) && Enabled(s, Access(c)) && s.conns[c].phase.job.SetJob?
    ensures Inv(ApplyAccess(s, c))
  {
    var k := s.conns[c];
    var t, job := k.phase.t, k.phase.job;
    var e := Put(job.name, job.key, job.value);
    assert ConnInv(s, c);
    assert t in Held(k) && TableInv(s, t);
    LogKeepsUnsaved(s, k.log, e, t);
    TableStep(s, c, Answered(k.(log := k.log + [e]), OK_REPLY), t, Written(s.tables[t], job.key, job.value));
  }

  lemma TakeTableKeeps(s: State, c: Conn)
    requires Inv(s) && Enabled(s, TakeTable(c))
    ensures Inv(Apply(s, TakeTable(c)))
  {
    var k := s.conns[c];
    var t := k.phase.t;
    assert ConnInv(s, c) && TableInv(s, t);
    TableStep(s, c, k.(phase := HoldTable(k.phase.job, t)), t, Locked(s.tables[t], c));
  }

  lemma AutoAccessKeeps(s: State, c: Conn)
    requires Inv(s) && Enabled(s, AutoAccess(c))
    ensures Inv(ApplyAutoAccess(s, c))
  {
    var k := s.conns[c];
    var t := k.phase.t;
    var s' := ApplyAutoAccess(s, c);
    assert ConnInv(s, c) && TableInv(s, t);
    if k.phase.job.GetJob? {
      ConnStep(s, c, s'.conns[c], s.registryOwner);
      HistoryIsFree(SetConn(s, c, s'.conns[c]), s'.history);
    } else {
      TableStep(s, c, s'.conns[c], t, s'.tables[t]);
    }
  }

  lemma AutoFlushKeeps(s: State, c: Conn)
    requires Inv(s) && Enabled(s, AutoFlush(c))
    ensures Inv(ApplyAutoFlush(s, c))
  {
    var t := s.conns[c].phase.t;
    var s' := ApplyAutoFlush(s, c);
    assert ConnInv(s, c) && TableInv(s, t);
    TableStep(s, c, s'.conns[c], t, Saved(s.tables[t]));
    HistoryIsFree(SetBoth(s, c, s'.conns[c], t, Saved(s.tables[t])), s'.history);
  }

  lemma DropTableKeeps(s: State, c: Conn)
    requires Inv(s) && Enabled(s, DropTable(c))
    ensures Inv(Apply(s, DropTable(c)))
  {
    var k := s.conns[c];
    var t := k.phase.t;
    assert ConnInv(s, c);
    assert t in Held(k);
    assert TableInv(s, t);
    TableStep(s, c, Answered(k, k.phase.reply), t, Unlocked(s.tables[t]));
  }

  // One table of a release loop: its pending map is emptied...
  lemma EmptyKeeps(s: State, step: Step)
    requires Inv(s) && Enabled(s, step) && (step.CommitOne? || step.AbortOne?)
    ensures Inv(Apply(s, step))
  {
    var k, s' := s.conns[step.c], Apply(s, step);
    assert ConnInv(s, step.c) && step.t in Held(k) && TableInv(s, step.t);
    TableStep(s, step.c, s'.conns[step.c], step.t, s'.tables[step.t]);
  }

  // ... and its mutex is unlocked.
  lemma UnlockKeeps(s: State, step: Step)
    requires Inv(s) && Enabled(s, step) && (step.CommitUnlock? || step.AbortUnlock?)
    ensures Inv(Apply(s, step))
  {
    var k, s' := s.conns[step.c], Apply(s, step);
    var t := k.phase.at.value;
    assert ConnInv(s, step.c) && t in Held(k) && TableInv(s, t);
    TableStep(s, step.c, s'.conns[step.c], t, Unlocked(s.tables[t]));
  }

  lemma ReleaseEndKeeps(s: State, step: Step)
    requires Inv(s) && Enabled(s, step) && (step.CommitDone? || step.AbortDone?)
    ensures Inv(Apply(s, step))
  {
    assert ConnInv(s, step.c);
    ConnStep(s, step.c, Apply(s, step).conns[step.c], s.registryOwner);
  }

  // Every step of every connection keeps the invariant.
  lemma StepKeepsInv(s: State, step: Step)
    requires Inv(s) && Enabled(s, step)
    ensures Inv(Apply(s, step))
  {
    match step
    case Connect(c) => ConnectKeeps(s, c);
    case Arrive(c, line) => ArriveKeeps(s, c, line);
    case TakeRegistry(c) => TakeRegistryKeeps(s, c);
    case UseRegistry(c, newId) =>
      if !s.conns[c].phase.job.CreateJob? || s.conns[c].phase.job.name in s.registry {
        LookupKeeps(s, c, newId);
      } else {
        CreateKeeps(s, c, newId);
      }
    case DropRegistry(c) => DropRegistryKeeps(s, c);
    case TryTable(c) => TryTableKeeps(s, c);
    case Access(c) =>
      if s.conns[c].phase.job.GetJob? {
        GetKeeps(s, c);
      } else {
        SetKeeps(s, c);
      }
    case TakeTable(c) => TakeTableKeeps(s, c);
    case AutoAccess(c) => AutoAccessKeeps(s, c);
    case AutoFlush(c) => AutoFlushKeeps(s, c);
    case DropTable(c) => DropTableKeeps(s, c);
    case CommitOne(_, _) => EmptyKeeps(s, step);
    case CommitUnlock(_) => UnlockKeeps(s, step);
    case AbortOne(_, _) => EmptyKeeps(s, step);
    case AbortUnlock(_) => UnlockKeeps(s, step);
    case CommitDone(_) => ReleaseEndKeeps(s, step);
    case AbortDone(_) => ReleaseEndKeeps(s, step);
  }

  lemma {:induction false} RunKeepsInv(s: State, steps: seq<Step>)
    requires Inv(s) && Run(s, steps)
    ensures Inv(After(s, steps))
    decreases |steps|
  {
    if steps != [] {
      StepKeepsInv(s, steps[0]);
      RunKeepsInv(Apply(s, steps[0]), steps[1..]);
    }
  }

  lemma ReachableInv(s: State)
    requires Reachable(s)
    ensures Inv(s)
  {
    var steps :| Run(INIT, steps) && After(INIT, steps) == s;
    RunKeepsInv(INIT, steps);
  }

  // No two threads ever hold the same table, and what a thread holds is marked as its own.
  lemma HoldersAreExclusive(s: State, c: Conn, d: Conn)
    requires Reachable(s) && c in s.conns && d in s.conns && c != d
    ensures Held(s.conns[c]) !! Held(s.conns[d])
    ensures forall t :: t in s.tables ==> (t in Held(s.conns[c]) <==> s.tables[t].owner == Some(c))
  {
    ReachableInv(s);
    assert ConnInv(s, c) && ConnInv(s, d);
    forall t | t in s.tables
      ensures t in Held(s.conns[c]) <==> s.tables[t].owner == Some(c)
    {
      assert TableInv(s, t);
    }
  }

  // A free table has nothing pending. A table in an open transaction has pending exactly the last
  // values the transaction has SET since its BEGIN.
  lemma PendingIsTheOwnersWrites(s: State, t: TableId)
    requires Reachable(s) && t in s.tables
    ensures s.tables[t].owner.None? ==> s.tables[t].pending == map[]
    ensures s.tables[t].owner.Some? ==>
              && s.tables[t].owner.value in s.conns
              && var k := s.conns[s.tables[t].owner.value];
              (!k.sess.inTx ==> Held(k) == {t} && k.locked == {})
              && (k.sess.inTx && !k.phase.Committing? && !k.phase.RollingBack? ==>
                    t in k.locked && s.tables[t].pending == Writes(k.log, s.tables[t].name))
  {
    ReachableInv(s);
    assert TableInv(s, t);
    if s.tables[t].owner.Some? {
      assert ConnInv(s, s.tables[t].owner.value);
    }
  }
}
