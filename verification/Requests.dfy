/** What each request means to its client: the reply, the stack and the tables it leaves, told from
    the state it finds. The other threads stand still, and nobody is in the registry. */
module Requests {
  import opened Wrappers
  import opened Integers
  import opened Text
  import opened Messages
  import opened Serialization
  import opened Lines
  import opened Grammar
  import opened ValueStacks
  import opened Sessions
  import opened Tables
  import opened Handlers
  import opened Wellformed

  const OK_MESSAGE := Msg(OK, [])

  function Failed(text: string): Msg {
    Msg(FAILED, [text])
  }

  function WithStack(k: Local, stack: seq<string>): Local {
    Local(Session(k.sess.loggedIn, k.sess.inTx, stack), k.locked)
  }

  function WithTable(w: World, name: string, e: TableState): World {
    World(w.tables[name := e], w.registryOwner)
  }

  // A logged-in connection outside a transaction, and one inside.
  predicate Alone(k: Local) {
    k.sess.loggedIn && !k.sess.inTx
  }

  predicate InTx(k: Local) {
    k.sess.loggedIn && k.sess.inTx
  }

  lemma FailureEncodes(text: string)
    requires PlainText(text)
    ensures Encode(Msg(FAILED, [text])).Ok?
  {
    ReplyOfText(FAILED, text);
  }

  lemma OkEncodes()
    ensures Encode(Msg(OK, [])).Ok?
  {
    OkReplyIsGood();
  }

  // ---- the line

  // A line that carries a request is served as that request.
  lemma LineMeans(w: World, k: Local, c: Conn, line: string, m: Msg, lead: nat, gaps: seq<string>)
    requires m.Valid() && |line| <= MAX_LINE && '\0' !in line && Carries(line, m, lead, gaps)
    ensures ServeLine(w, k, c, line) == ServeMessage(w, k, c, m)
  {
    CStringWithoutNul(line);
    CarriedIsDecoded(line, m, lead, gaps);
    GoodLine(w, k, c, line, m);
  }

  // Any other line is answered with ERROR, in any state, and ends the session.
  lemma UndecodableEnds(w: World, k: Local, c: Conn, line: string)
    requires Decode(CString(line)).Err?
    ensures ServeLine(w, k, c, line) == Ends(w, k, Msg(ERROR, [Decode(CString(line)).error]))
  {
    hide Catch, Decode, ServeLine;
    var text := Decode(CString(line)).error;
    DecodeErrorIsPlain(CString(line));
    ReplyOfText(ERROR, text);
    BadLine(w, k, c, line, text);
    ErrorLeaves(w, k, text);
  }

  lemma ErrorLeaves(w: World, k: Local, text: string)
    requires GoodReply(Msg(ERROR, [text]))
    ensures Catch(Leaves(w, k, Msg(ERROR, [text]))) == Ends(w, k, Msg(ERROR, [text]))
  {
  }

  // ---- the session

  // Everything but LOGIN and BYE is refused before LOGIN, and changes nothing.
  lemma RefusedBeforeLogin(w: World, k: Local, c: Conn, m: Msg)
    requires m.Valid() && !m.kind.LOGIN? && !m.kind.BYE? && !k.sess.loggedIn
    ensures ServeMessage(w, k, c, m) == Continues(w, k, Failed(NOT_LOGGED_IN))
  {
    SessionTextsArePlain();
    FailureEncodes(NOT_LOGGED_IN);
    hide PlainText, Encode;
  }

  lemma LoginMeans(w: World, k: Local, c: Conn, user: string)
    requires IsIdentifier(user)
    ensures ServeMessage(w, k, c, Msg(LOGIN, [user]))
         == if k.sess.loggedIn then Continues(w, k, Failed(ALREADY_LOGGED_IN))
            else Continues(w, Local(Session(true, k.sess.inTx, k.sess.stack), k.locked), OK_MESSAGE)
  {
    SessionTextsArePlain();
    FailureEncodes(ALREADY_LOGGED_IN);
    OkEncodes();
    hide PlainText, Encode;
  }

  lemma ByeMeans(w: World, k: Local, c: Conn)
    ensures ServeMessage(w, k, c, Msg(BYE, [])) == Ends(w, k, OK_MESSAGE)
  {
    OkEncodes();
    hide Encode;
  }

  // A response sent as a request ends the session with ERROR.
  lemma ResponseIsNoRequest(w: World, k: Local, c: Conn, m: Msg)
    requires m.Valid() && k.sess.loggedIn && (m.kind.OK? || m.kind.FAILED? || m.kind.ERROR? || m.kind.DATA?)
    ensures ServeMessage(w, k, c, m) == Ends(w, k, Msg(ERROR, [UNKNOWN_REQUEST]))
  {
    SessionTextsArePlain();
    ReplyOfText(ERROR, UNKNOWN_REQUEST);
    hide PlainText;
  }

  // ---- the stack

  lemma PushMeans(w: World, k: Local, c: Conn, v: string)
    requires k.sess.loggedIn && IsValue(v)
    ensures ServeMessage(w, k, c, Msg(PUSH, [v])) == Continues(w, WithStack(k, k.sess.stack + [v]), OK_MESSAGE)
  {
    OkEncodes();
    hide Encode;
  }

  lemma PopMeans(w: World, k: Local, c: Conn, below: seq<string>, v: string)
    requires k.sess.loggedIn && k.sess.stack == below + [v]
    ensures ServeMessage(w, k, c, Msg(POP, [])) == Continues(w, WithStack(k, below), OK_MESSAGE)
  {
    OkEncodes();
    hide Encode;
    assert k.sess.stack[..|below|] == below;
  }

  // POP undoes PUSH.
  lemma PushThenPop(w: World, k: Local, c: Conn, v: string)
    requires k.sess.loggedIn && IsValue(v)
    ensures var o := ServeMessage(w, k, c, Msg(PUSH, [v]));
            o.Continues? && o.reply == OK_MESSAGE
            && ServeMessage(o.w, o.k, c, Msg(POP, [])) == Continues(w, k, OK_MESSAGE)
  {
    hide ServeMessage;
    PushMeans(w, k, c, v);
    PopMeans(w, WithStack(k, k.sess.stack + [v]), c, k.sess.stack, v);
  }

  lemma TopMeans(w: World, k: Local, c: Conn, below: seq<string>, v: string)
    requires k.sess.loggedIn && k.sess.stack == below + [v] && GoodValue(v)
    ensures Msg(TOP, []).Valid() && ServeMessage(w, k, c, Msg(TOP, [])) == Continues(w, k, Msg(DATA, [v]))
  {
    DataReply(v);
    hide Encode;
  }

  // With nothing on the stack POP, TOP and SET fail and change nothing.
  lemma EmptyStackFails(w: World, k: Local, c: Conn, name: string, key: string)
    requires k.sess.loggedIn && k.sess.stack == [] && IsIdentifier(name) && IsIdentifier(key)
    ensures ServeMessage(w, k, c, Msg(POP, [])) == Continues(w, k, Failed(POP_OF_EMPTY))
    ensures ServeMessage(w, k, c, Msg(TOP, [])) == Continues(w, k, Failed(TOP_OF_EMPTY))
    ensures ServeMessage(w, k, c, Msg(SET, [name, key])) == Continues(w, k, Failed(STACK_EMPTY))
  {
    SessionTextsArePlain();
    StackTextsArePlain();
    hide PlainText;
    FailureEncodes(POP_OF_EMPTY);
    FailureEncodes(TOP_OF_EMPTY);
    FailureEncodes(STACK_EMPTY);
    hide Encode;
  }

  // ---- arithmetic

  predicate Calculation(kind: MessageType) {
    kind.ADD? || kind.SUB? || kind.MUL? || kind.DIV?
  }

  // v is what the request asks for, of the earlier operand l and the later operand r.
  predicate Calculates(kind: MessageType, l: int, r: int, v: int) {
    match kind
    case ADD => v == l + r
    case SUB => v == l - r
    case MUL => v == l * r
    case DIV =>
      && r != 0 && Abs(l - v * r) < Abs(r)
      && (l >= 0 ==> l - v * r >= 0) && (l <= 0 ==> l - v * r <= 0)
    case _ => false
  }

  function OperationOf(kind: MessageType): ArithOp
    requires Calculation(kind)
  {
    if kind.ADD? then Add else if kind.SUB? then Sub else if kind.MUL? then Mul else Div
  }

  lemma CalculationHandled(sess: Session, kind: MessageType)
    requires sess.loggedIn && Calculation(kind)
    ensures Handle(sess, Msg(kind, [])) == ArithAction(sess, OperationOf(kind))
  {
    hide ArithAction;
  }

  // Two operands that parse are replaced by the text of the result, when it fits in 32 bits.
  lemma ArithmeticMeans(w: World, k: Local, c: Conn, kind: MessageType,
                        below: seq<string>, left: string, right: string, l: int, r: int, v: int)
    requires k.sess.loggedIn && k.sess.stack == below + [left, right]
    requires Stoi(left) == Number(l) && Stoi(right) == Number(r)
    requires Calculates(kind, l, r, v) && InRange(v)
    ensures ServeMessage(w, k, c, Msg(kind, [])) == Continues(w, WithStack(k, below + [ToString(v)]), OK_MESSAGE)
  {
    CalculationHandled(k.sess, kind);
    var op := OperationOf(kind);
    ExactComputes(op, l, r);
    ComputesOne(op, l, r, v, Exact(op, l, r));
    TopTwo(below, left, right);
    OkEncodes();
    hide Stoi, ToString, Exact, Computes, Calculates, Handle, Encode;
  }

  // The complaint about an operand that does not parse.
  function Complaint(p: Parsed): string
    requires !p.Number?
  {
    if p.NotANumber? then NOT_AN_INTEGER else OPERAND_OUT_OF_RANGE
  }

  // Otherwise the request fails, and both operands are gone all the same.
  lemma ArithmeticFails(w: World, k: Local, c: Conn, kind: MessageType,
                        below: seq<string>, left: string, right: string)
    requires k.sess.loggedIn && k.sess.stack == below + [left, right] && Calculation(kind)
    requires !Stoi(left).Number? || !Stoi(right).Number? || (kind.DIV? && Stoi(right).n == 0)
    ensures ServeMessage(w, k, c, Msg(kind, []))
         == Continues(w, WithStack(k, below), Failed(if !Stoi(left).Number? then Complaint(Stoi(left))
                                                     else if !Stoi(right).Number? then Complaint(Stoi(right))
                                                     else DIVISION_BY_ZERO))
  {
    CalculationHandled(k.sess, kind);
    TopTwo(below, left, right);
    OperandTextsArePlain();
    hide PlainText;
    FailureEncodes(NOT_AN_INTEGER);
    FailureEncodes(OPERAND_OUT_OF_RANGE);
    FailureEncodes(DIVISION_BY_ZERO);
    hide Stoi, ToString, Exact, Handle, Encode;
  }

  // With fewer than two operands it fails too, and the stack stays.
  lemma TooFewOperands(w: World, k: Local, c: Conn, kind: MessageType)
    requires k.sess.loggedIn && |k.sess.stack| < 2 && Calculation(kind)
    ensures ServeMessage(w, k, c, Msg(kind, [])) == Continues(w, k, Failed(TooFew(OperationOf(kind))))
  {
    CalculationHandled(k.sess, kind);
    TooFewIsPlain(OperationOf(kind));
    FailureEncodes(TooFew(OperationOf(kind)));
    hide PlainText, TooFew, Handle, Encode;
  }

  // ---- the tables

  // Nobody is in the registry, and the table is there.
  predicate HasTable(w: World, name: string) {
    w.registryOwner == None && name in w.tables
  }

  predicate Identifiers(name: string, key: string) {
    IsIdentifier(name) && IsIdentifier(key)
  }

  lemma TableFailuresEncode()
    ensures Encode(Msg(FAILED, [DUPLICATE_TABLE])).Ok? && Encode(Msg(FAILED, [NO_SUCH_TABLE])).Ok?
    ensures Encode(Msg(FAILED, [NO_SUCH_KEY])).Ok?
  {
    FixedRepliesAreGood();
  }

  // CREATE adds an empty table, inside a transaction or not, or fails when the name is taken.
  lemma CreateMeans(w: World, k: Local, c: Conn, name: string)
    requires k.sess.loggedIn && IsIdentifier(name) && w.registryOwner == None
    ensures ServeMessage(w, k, c, Msg(CREATE, [name]))
         == if name in w.tables then Continues(w, k, Failed(DUPLICATE_TABLE))
            else Continues(WithTable(w, name, TableState(name, map[], map[], None)), k, OK_MESSAGE)
  {
    TableFailuresEncode();
    OkEncodes();
    hide Encode;
  }

  // A lookup of an unknown table fails; a SET has taken its value off the stack by then.
  lemma UnknownTableFails(w: World, k: Local, c: Conn, name: string, key: string, below: seq<string>, v: string)
    requires k.sess.loggedIn && Identifiers(name, key) && w.registryOwner == None && name !in w.tables
    ensures ServeMessage(w, k, c, Msg(GET, [name, key])) == Continues(w, k, Failed(NO_SUCH_TABLE))
    ensures k.sess.stack == below + [v] ==>
              ServeMessage(w, k, c, Msg(SET, [name, key])) == Continues(w, WithStack(k, below), Failed(NO_SUCH_TABLE))
  {
    TableFailuresEncode();
    hide Encode;
    assert (below + [v])[..|below|] == below;
  }

  // A GET outside a transaction, of a free table, pushes the committed value of its key.
  lemma GetAlone(w: World, k: Local, c: Conn, name: string, key: string)
    requires Alone(k) && Identifiers(name, key) && HasTable(w, name)
    requires w.tables[name].owner == None && w.tables[name].pending == map[]
    ensures var content := w.tables[name].committed;
            ServeMessage(w, k, c, Msg(GET, [name, key]))
            == if key in content then Continues(w, WithStack(k, k.sess.stack + [content[key]]), OK_MESSAGE)
               else Continues(w, k, Failed(NO_SUCH_KEY))
  {
    TableFailuresEncode();
    OkEncodes();
    hide Encode;
    assert w.tables[name].committed + map[] == w.tables[name].committed;
  }

  // A SET outside a transaction, of a free table, moves the top of the stack to its key for good.
  lemma SetAlone(w: World, k: Local, c: Conn, name: string, key: string, below: seq<string>, v: string)
    requires Alone(k) && Identifiers(name, key) && HasTable(w, name) && k.sess.stack == below + [v]
    requires w.tables[name].owner == None && w.tables[name].pending == map[]
    ensures var e := w.tables[name];
            ServeMessage(w, k, c, Msg(SET, [name, key]))
            == Continues(WithTable(w, name, TableState(e.name, e.committed[key := v], map[], None)),
                         WithStack(k, below), OK_MESSAGE)
  {
    OkEncodes();
    hide Encode;
    assert k.sess.stack[..|below|] == below;
    assert w.tables[name].committed + map[key := v] == w.tables[name].committed[key := v];
  }

  // Both wait for a table that somebody holds.
  lemma AloneWaits(w: World, k: Local, c: Conn, name: string, key: string, below: seq<string>, v: string)
    requires Alone(k) && Identifiers(name, key) && HasTable(w, name) && w.tables[name].owner.Some?
    ensures ServeMessage(w, k, c, Msg(GET, [name, key])) == Stuck(w, k)
    ensures k.sess.stack == below + [v] ==>
              ServeMessage(w, k, c, Msg(SET, [name, key])) == Stuck(w, WithStack(k, below))
  {
    assert (below + [v])[..|below|] == below;
  }

  // In a transaction the table is the connection's own, or free.
  predicate Usable(w: World, k: Local, name: string) {
    HasTable(w, name) && (name in k.locked || w.tables[name].owner == None)
  }

  // The table is locked by then.
  function Holding(w: World, k: Local, c: Conn, name: string): World
    requires HasTable(w, name)
  {
    var e := w.tables[name];
    if name in k.locked then w else WithTable(w, name, TableState(e.name, e.committed, e.pending, Some(c)))
  }

  function Holds(k: Local, name: string, stack: seq<string>): Local {
    Local(Session(k.sess.loggedIn, k.sess.inTx, stack), k.locked + {name})
  }

  // A GET in a transaction sees what the transaction has written, else what is committed. The table
  // is locked afterwards even when the key is missing.
  lemma GetInTx(w: World, k: Local, c: Conn, name: string, key: string)
    requires InTx(k) && Identifiers(name, key) && Usable(w, k, name)
    ensures var e, w' := w.tables[name], Holding(w, k, c, name);
            ServeMessage(w, k, c, Msg(GET, [name, key]))
            == if key in e.pending then Continues(w', Holds(k, name, k.sess.stack + [e.pending[key]]), OK_MESSAGE)
               else if key in e.committed then
                 Continues(w', Holds(k, name, k.sess.stack + [e.committed[key]]), OK_MESSAGE)
               else Continues(w', Holds(k, name, k.sess.stack), Failed(NO_SUCH_KEY))
  {
    TableFailuresEncode();
    OkEncodes();
    hide Encode;
    assert name in k.locked ==> k.locked + {name} == k.locked;
  }

  // A SET in a transaction moves the top of the stack to the table's pending map.
  lemma SetInTx(w: World, k: Local, c: Conn, name: string, key: string, below: seq<string>, v: string)
    requires InTx(k) && Identifiers(name, key) && Usable(w, k, name) && k.sess.stack == below + [v]
    ensures var e := w.tables[name];
            var owner := if name in k.locked then e.owner else Some(c);
            ServeMessage(w, k, c, Msg(SET, [name, key]))
            == Continues(WithTable(w, name, TableState(e.name, e.committed, e.pending[key := v], owner)),
                         Holds(k, name, below), OK_MESSAGE)
  {
    OkEncodes();
    hide Encode;
    assert k.sess.stack[..|below|] == below;
    assert name in k.locked ==> k.locked + {name} == k.locked;
  }

  // ---- the end of a transaction

  function Fresh(k: Local, stack: seq<string>): Local {
    Local(Session(k.sess.loggedIn, false, stack), {})
  }

  // Every table of the set has what was pending, or not, and is free; the others are as they were.
  predicate Ended(w: World, w': World, names: set<string>, kept: bool) {
    && w'.registryOwner == w.registryOwner && w'.tables.Keys == w.tables.Keys
    && forall n {:trigger w'.tables[n]} :: n in w.tables ==>
         var e := w.tables[n];
         w'.tables[n] == if n !in names then e
                         else TableState(e.name, if kept then e.committed + e.pending else e.committed, map[], None)
  }

  // BEGIN opens a transaction; inside one it fails and rolls back.
  lemma BeginMeans(w: World, k: Local, c: Conn)
    requires k.sess.loggedIn
    ensures var o := ServeMessage(w, k, c, Msg(BEGIN, []));
            if k.sess.inTx then
              && o.Continues? && Ended(w, o.w, k.locked, false) && o.k == Fresh(k, k.sess.stack)
              && o.reply == Failed(NESTED_TRANSACTION)
            else o == Continues(w, Local(Session(true, true, k.sess.stack), k.locked), OK_MESSAGE)
  {
    SessionTextsArePlain();
    FailureEncodes(NESTED_TRANSACTION);
    OkEncodes();
    RollbackEnds(w, k);
    hide Encode, Ended, RollbackAll, AfterTx, PlainText;
  }

  // COMMIT makes every pending value permanent, and fails outside a transaction.
  lemma CommitMeans(w: World, k: Local, c: Conn)
    requires k.sess.loggedIn
    ensures var o := ServeMessage(w, k, c, Msg(COMMIT, []));
            if k.sess.inTx then
              && o.Continues? && Ended(w, o.w, k.locked, true) && o.k == Fresh(k, k.sess.stack)
              && o.reply == OK_MESSAGE
            else o == Continues(w, k, Failed(NOT_IN_TRANSACTION))
  {
    SessionTextsArePlain();
    FailureEncodes(NOT_IN_TRANSACTION);
    OkEncodes();
    hide Encode, PlainText;
  }

  lemma RollbackEnds(w: World, k: Local)
    ensures Ended(w, RollbackAll(w, k.locked), k.locked, false) && AfterTx(k) == Fresh(k, k.sess.stack)
  {
  }

  // A transaction that reaches a table somebody else holds fails, and its job leaves the stack.
  predicate FailsOn(w: World, k: Local, name: string, o: PassOutcome) {
    && o.Continues? && Ended(w, o.w, k.locked, false) && o.k == Fresh(k, k.sess.stack)
    && o.reply == Failed(LOCK_FAILED + name)
  }

  lemma JobFails(w: World, k: Local, c: Conn, job: Job)
    requires InTx(k) && !job.CreateJob? && IsIdentifier(job.name) && HasTable(w, job.name)
    requires job.name !in k.locked && w.tables[job.name].owner.Some? && |job.name| <= MAX_NAME + 1
    ensures FailsOn(w, k, job.name, Catch(ServeJob(w, k, c, job)))
  {
    LockFailureFits(job.name);
    RollbackEnds(w, k);
    hide Encode, Ended, RollbackAll, AfterTx, GoodReply, SoundReply;
  }

  // So the failed trylock rolls the transaction back.
  lemma LockFailureMeans(w: World, k: Local, c: Conn, name: string, key: string, below: seq<string>, v: string)
    requires InTx(k) && Identifiers(name, key) && HasTable(w, name)
    requires name !in k.locked && w.tables[name].owner.Some? && |name| <= MAX_NAME + 1
    ensures FailsOn(w, k, name, ServeMessage(w, k, c, Msg(GET, [name, key])))
    ensures k.sess.stack == below + [v] ==>
              FailsOn(w, WithStack(k, below), name, ServeMessage(w, k, c, Msg(SET, [name, key])))
  {
    hide Catch, ServeJob, FailsOn;
    JobFails(w, k, c, GetJob(name, key));
    JobFails(w, WithStack(k, below), c, SetJob(name, key, v));
    assert (below + [v])[..|below|] == below;
  }
}
