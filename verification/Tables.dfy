/** Tables with pending changes and a mutex: table.h and table.cpp. */
module Tables {
  import opened Wrappers

  // A connection's thread, as the owner of a mutex.
  type Conn = nat

  type Content = map<string, string>

  // The value of a Table object. The pthread mutex is modelled by its owner.
  datatype TableState = TableState(name: string, committed: Content, pending: Content, owner: Option<Conn>)

  const DUPLICATE_TABLE := "Table with that name already exists"
  const NO_SUCH_TABLE := "The table that you want to find is not exist"
  const NO_SUCH_KEY := "The key is not in the map"
  const LOCK_FAILED := "Could not acquire lock on table "

  function Lookup(m: Content, key: string): Option<string> {
    if key in m then Some(m[key]) else None
  }

  // Pending entries hide committed ones.
  function Visible(e: TableState, key: string): Option<string> {
    Lookup(e.committed + e.pending, key)
  }

  function NewTable(name: string): TableState {
    TableState(name, map[], map[], None)
  }

  function Locked(e: TableState, c: Conn): TableState {
    e.(owner := Some(c))
  }

  function Unlocked(e: TableState): TableState {
    e.(owner := None)
  }

  function Written(e: TableState, key: string, value: string): TableState {
    e.(pending := e.pending[key := value])
  }

  function Saved(e: TableState): TableState {
    e.(committed := e.committed + e.pending, pending := map[])
  }

  function Dropped(e: TableState): TableState {
    e.(pending := map[])
  }

  // What a release loop leaves of a table it has held.
  function Released(e: TableState, commit: bool): TableState {
    Unlocked(if commit then Saved(e) else Dropped(e))
  }

  class Table {
    const name: string
    var committed: Content
    var pending: Content
    var owner: Option<Conn>

    function Value(): TableState
      reads this
    {
      TableState(name, committed, pending, owner)
    }

    constructor (name: string)
      ensures Value() == NewTable(name)
    {
      this.name, this.committed, this.pending, this.owner := name, map[], map[], None;
    }

    // pthread_mutex_trylock: never waits.
    method TryLock(me: Conn) returns (locked: bool)
      modifies this`owner
      ensures locked <==> old(owner).None?
      ensures Value() == if locked then Locked(old(Value()), me) else old(Value())
    {
      locked := owner.None?;
      if locked {
        owner := Some(me);
      }
    }

    method Unlock()
      modifies this`owner
      ensures Value() == Unlocked(old(Value()))
    {
      owner := None;
    }

    method Set(key: string, value: string)
      modifies this`pending
      ensures Value() == Written(old(Value()), key, value)
    {
      pending := pending[key := value];
    }

    method Get(key: string) returns (r: Result<string, string>)
      ensures r == match Visible(Value(), key) case Some(v) => Ok(v) case None => Err(NO_SUCH_KEY)
    {
      if key in pending {
        return Ok(pending[key]);
      }
      if key in committed {
        return Ok(committed[key]);
      }
      return Err(NO_SUCH_KEY);
    }

    // True exactly when Get succeeds.
    method HasKey(key: string) returns (found: bool)
      ensures found <==> Visible(Value(), key).Some?
    {
      if key in pending {
        return true;
      }
      if key in committed {
        return true;
      }
      return false;
    }

    // The pairs are copied one at a time; what a GET sees is the same after each copy.
    method CommitChanges()
      modifies this`committed, this`pending
      ensures Value() == Saved(old(Value()))
      ensures forall key :: Visible(Value(), key) == Visible(old(Value()), key)
    {
      var keys := pending.Keys;
      while keys != {}
        invariant keys <= pending.Keys && pending == old(pending)
        invariant committed + pending == old(committed + pending)
        invariant forall key :: key in pending && key !in keys ==> key in committed && committed[key] == pending[key]
        invariant forall key :: key in committed && key !in pending ==> key in old(committed)
        decreases keys
      {
        var key :| key in keys;
        committed := committed[key := pending[key]];
        keys := keys - {key};
      }
      assert committed == old(committed + pending);
      pending := map[];
    }

    method RollbackChanges()
      modifies this`pending
      ensures Value() == Dropped(old(Value()))
    {
      pending := map[];
    }
  }

  /** A scoped lock: guard.h. A guard that has not acquired its mutex stands for a constructor whose
      thread still waits; the wait itself is a phase of the Protocol module. */
  class Guard {
    const lock: Table
    const acquired: bool

    constructor (lock: Table, me: Conn)
      modifies lock`owner
      ensures this.lock == lock && (acquired <==> old(lock.owner).None?)
      ensures lock.Value() == if acquired then Locked(old(lock.Value()), me) else old(lock.Value())
    {
      this.lock := lock;
      this.acquired := lock.owner.None?;
      new;
      if acquired {
        lock.owner := Some(me);
      }
    }

    // The destructor, which runs only after the constructor is through.
    method Release()
      requires acquired
      modifies lock`owner
      ensures lock.Value() == Unlocked(old(lock.Value()))
    {
      lock.owner := None;
    }
  }

  // ---- a table is a log

  datatype TableOp = SetOp(key: string, value: string) | CommitOp | RollbackOp

  function ApplyOp(e: TableState, op: TableOp): TableState {
    match op
    case SetOp(key, value) => Written(e, key, value)
    case CommitOp => Saved(e)
    case RollbackOp => Dropped(e)
  }

  function ApplyOps(e: TableState, ops: seq<TableOp>): TableState {
    if ops == [] then e else ApplyOp(ApplyOps(e, ops[..|ops| - 1]), ops[|ops| - 1])
  }

  // The sets since the last commit or rollback.
  function OpenSets(ops: seq<TableOp>): seq<TableOp> {
    if ops == [] then [] else
      var before, op := OpenSets(ops[..|ops| - 1]), ops[|ops| - 1];
      if op.SetOp? then before + [op] else []
  }

  // The sets that reached a commit, in order.
  function DurableSets(ops: seq<TableOp>): seq<TableOp> {
    if ops == [] then [] else
      var before, op := ops[..|ops| - 1], ops[|ops| - 1];
      DurableSets(before) + if op.CommitOp? then OpenSets(before) else []
  }

  // Replaying sets on a map.
  function Replay(m: Content, sets: seq<TableOp>): Content {
    if sets == [] then m else
      var before, op := Replay(m, sets[..|sets| - 1]), sets[|sets| - 1];
      if op.SetOp? then before[op.key := op.value] else before
  }

  lemma {:induction false} ReplayAppend(m: Content, a: seq<TableOp>, b: seq<TableOp>)
    ensures Replay(m, a + b) == Replay(Replay(m, a), b)
  {
    if b == [] {
      assert a + b == a;
    } else {
      assert (a + b)[..|a + b| - 1] == a + b[..|b| - 1];
      ReplayAppend(m, a, b[..|b| - 1]);
    }
  }

  lemma {:induction false} ReplayIsOverlay(m: Content, sets: seq<TableOp>)
    ensures Replay(m, sets) == m + Replay(map[], sets)
  {
    if sets != [] {
      ReplayIsOverlay(m, sets[..|sets| - 1]);
    }
  }

  // Whatever the sets, commits and rollbacks, the committed map is the replay of exactly the sets
  // that reached a commit, and the pending map of those still open.
  lemma {:induction false} TableIsLog(name: string, ops: seq<TableOp>)
    ensures ApplyOps(NewTable(name), ops).committed == Replay(map[], DurableSets(ops))
    ensures ApplyOps(NewTable(name), ops).pending == Replay(map[], OpenSets(ops))
  {
    if ops != [] {
      var before, op := ops[..|ops| - 1], ops[|ops| - 1];
      TableIsLog(name, before);
      if op.SetOp? {
        assert (OpenSets(before) + [op])[..|OpenSets(before)|] == OpenSets(before);
      }
      if op.CommitOp? {
        ReplayAppend(map[], DurableSets(before), OpenSets(before));
        ReplayIsOverlay(Replay(map[], DurableSets(before)), OpenSets(before));
      } else {
        assert DurableSets(ops) == DurableSets(before);
      }
    }
  }
}
