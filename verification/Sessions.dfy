/** How one connection takes a request: the dispatch of chat_with_client (client_connection.cpp). */
module Sessions {
  import opened Wrappers
  import opened Integers
  import opened Text
  import opened Messages
  import opened Serialization
  import opened Lines
  import opened ValueStacks

  // The part of a ClientConnection that no other connection can see.
  datatype Session = Session(loggedIn: bool, inTx: bool, stack: seq<string>)

  const NEW_SESSION := Session(false, false, [])

  // A request that needs the shared tables, with the value a SET has already popped.
  datatype Job =
    | CreateJob(name: string)
    | GetJob(name: string, key: string)
    | SetJob(name: string, key: string, value: string)

  // What a decoded request makes the connection do.
  datatype Action =
    | Answer(sess: Session, reply: Msg)   // reply and wait for the next request
    | Leave(reply: Msg)                   // reply and end the session
    | Start(sess: Session, job: Job)      // go to the shared tables
    | Commit                              // enter the commit loop
    | Abort(text: string)                 // the transaction fails

  const NOT_LOGGED_IN := "User has not logged in"
  const ALREADY_LOGGED_IN := "User already logged in"
  const STACK_EMPTY := "The stack is empty!"
  const NESTED_TRANSACTION := "Nested transaction not allowed"
  const NOT_IN_TRANSACTION := "Not in a transaction"
  const UNKNOWN_REQUEST := "Unknown or invalid command received"

  function Failure(sess: Session, text: string): Action {
    Answer(sess, FailedReply(text))
  }

  function Last(stack: seq<string>): string
    requires stack != []
  {
    stack[|stack| - 1]
  }

  function AllButLast(stack: seq<string>): seq<string>
    requires stack != []
  {
    stack[..|stack| - 1]
  }

  function TopAction(sess: Session): Action {
    if sess.stack == [] then Failure(sess, TOP_OF_EMPTY) else
      var data := Msg(DATA, [Last(sess.stack)]);
      match Encode(data)
      case Ok(_) => Answer(sess, data)
      case Err(e) => Leave(Msg(ERROR, [e]))
  }

  function ArithAction(sess: Session, op: ArithOp): Action {
    var (stack, error) := Arithmetic(op, sess.stack);
    match error
    case None => Answer(sess.(stack := stack), OK_REPLY)
    case Some(e) => Failure(sess.(stack := stack), e)
  }

  function PushAction(sess: Session, value: string): Action {
    Answer(sess.(stack := sess.stack + [value]), OK_REPLY)
  }

  function PopAction(sess: Session): Action {
    if sess.stack == [] then Failure(sess, POP_OF_EMPTY)
    else Answer(sess.(stack := AllButLast(sess.stack)), OK_REPLY)
  }

  function SetAction(sess: Session, name: string, key: string): Action {
    if sess.stack == [] then Failure(sess, STACK_EMPTY)
    else Start(sess.(stack := AllButLast(sess.stack)), SetJob(name, key, Last(sess.stack)))
  }

  function LoginAction(sess: Session): Action {
    if sess.loggedIn then Failure(sess, ALREADY_LOGGED_IN)
    else Answer(sess.(loggedIn := true), OK_REPLY)
  }

  function BeginAction(sess: Session): Action {
    if sess.inTx then Abort(NESTED_TRANSACTION)
    else Answer(sess.(inTx := true), OK_REPLY)
  }

  function CommitAction(sess: Session): Action {
    if sess.inTx then Commit else Failure(sess, NOT_IN_TRANSACTION)
  }

  function Handle(sess: Session, m: Msg): Action
    requires m.Valid()
  {
    if !m.kind.LOGIN? && !m.kind.BYE? && !sess.loggedIn then Failure(sess, NOT_LOGGED_IN) else
      match m.kind
      case LOGIN => LoginAction(sess)
      case CREATE => Start(sess, CreateJob(m.args[0]))
      case GET => Start(sess, GetJob(m.args[0], m.args[1]))
      case SET => SetAction(sess, m.args[0], m.args[1])
      case PUSH => PushAction(sess, m.args[0])
      case POP => PopAction(sess)
      case TOP => TopAction(sess)
      case ADD => ArithAction(sess, Add)
      case SUB => ArithAction(sess, Sub)
      case MUL => ArithAction(sess, Mul)
      case DIV => ArithAction(sess, Div)
      case BEGIN => BeginAction(sess)
      case COMMIT => CommitAction(sess)
      case BYE => Leave(OK_REPLY)
      case _ => Leave(Msg(ERROR, [UNKNOWN_REQUEST]))
  }

  // The action for a line as rio_readlineb delivers it: decode sees it up to its first NUL.
  function Dispatch(sess: Session, line: string): Action {
    match Decode(CString(line))
    case Ok(m) => Handle(sess, m)
    case Err(e) => Leave(Msg(ERROR, [e]))
  }

  // Longest value a request line can carry: "PUSH ", the value, a newline.
  const MAX_VALUE: nat := 1017

  predicate GoodValue(v: string) {
    IsValue(v) && |v| <= MAX_VALUE && '\0' !in v
  }

  predicate GoodStack(stack: seq<string>) {
    forall i :: 0 <= i < |stack| ==> GoodValue(stack[i])
  }

  predicate GoodJob(job: Job) {
    IsIdentifier(job.name) && (job.SetJob? ==> GoodValue(job.value))
  }

  predicate GoodAction(a: Action) {
    match a
    case Answer(sess, reply) => GoodStack(sess.stack) && GoodReply(reply) && !reply.kind.ERROR?
    case Start(sess, job) => GoodStack(sess.stack) && GoodJob(job)
    case Leave(reply) => GoodReply(reply)
    case _ => true
  }

  // A reply the client can read back in one line.
  predicate GoodReply(reply: Msg) {
    reply.Valid() && LineSafe(reply) && |LineText(reply)| <= MAX_LINE
  }

  predicate PlainText(text: string) {
    |text| <= 1000 && '\n' !in text && '\0' !in text
  }

  lemma ReplyOfText(kind: MessageType, text: string)
    requires kind.FAILED? || kind.ERROR?
    requires PlainText(text)
    ensures GoodReply(Msg(kind, [text]))
  {
    OneArgText(Msg(kind, [text]));
  }

  lemma SessionTextsArePlain()
    ensures PlainText(NOT_LOGGED_IN) && PlainText(ALREADY_LOGGED_IN) && PlainText(STACK_EMPTY)
    ensures PlainText(NESTED_TRANSACTION) && PlainText(NOT_IN_TRANSACTION) && PlainText(UNKNOWN_REQUEST)
  {
  }

  lemma StackTextsArePlain()
    ensures PlainText(TOP_OF_EMPTY) && PlainText(POP_OF_EMPTY)
  {
  }

  lemma OperandTextsArePlain()
    ensures PlainText(NOT_AN_INTEGER) && PlainText(OPERAND_OUT_OF_RANGE) && PlainText(DIVISION_BY_ZERO)
  {
  }

  lemma TooFewIsPlain(op: ArithOp)
    ensures PlainText(TooFew(op))
  {
    assert PlainText(TOO_FEW);
    assert PlainText(OperationName(op));
  }

  lemma LineTextsArePlain()
    ensures PlainText(NO_NEWLINE) && PlainText(EMPTY_MESSAGE) && PlainText(UNKNOWN_COMMAND)
  {
  }

  lemma DecodeTextsArePlain()
    ensures PlainText(TOO_LONG) && PlainText(NO_NEWLINE) && PlainText(EMPTY_MESSAGE)
    ensures PlainText(UNKNOWN_COMMAND) && PlainText(BAD_FORMAT)
  {
    LineTextsArePlain();
    assert PlainText(TOO_LONG) && PlainText(BAD_FORMAT);
  }

  lemma OkReplyIsGood()
    ensures GoodReply(OK_REPLY)
  {
    assert ArgsText([]) == [];
  }

  // DATA carries any value a stack may hold, and the client reads that value back.
  lemma DataReply(v: string)
    requires GoodValue(v)
    ensures var data := Msg(DATA, [v]);
            GoodReply(data) && Encode(data) == Ok(LineText(data)) && Decode(LineText(data)) == Ok(data)
  {
    var data := Msg(DATA, [v]);
    OneArgText(data);
    DecodeUndoesEncode(data);
  }

  lemma OneArgText(m: Msg)
    requires !m.kind.NONE? && |m.args| == 1
    ensures LineText(m) == CommandText(m.kind) + [' '] + m.args[0] + ['\n']
  {
    assert ArgsText(m.args[1..]) == [];
  }

  lemma PushLength(m: Msg)
    requires m.kind.PUSH? && |m.args| == 1
    ensures |LineText(m)| == |m.args[0]| + 6
  {
    OneArgText(m);
  }

  // A value that arrives in a request line is short and free of NULs.
  lemma PushedValueIsGood(line: string)
    requires |line| <= MAX_LINE
    requires Decode(CString(line)).Ok? && Decode(CString(line)).value.kind.PUSH?
    ensures GoodValue(Decode(CString(line)).value.args[0])
  {
    hide Decode, CString, LineText;
    var s := CString(line);
    var m := Decode(s).value;
    CStringShorter(line);
    NormalForm(s);
    PushLength(m);
    DecodedArgsFrom(s, '\0');
  }

  lemma {:induction false} CStringShorter(s: string)
    ensures |CString(s)| <= |s| && CString(s) <= s && '\0' !in CString(s)
  {
    if s != [] && s[0] != '\0' {
      CStringShorter(s[1..]);
    }
  }

  lemma ArithErrorIsPlain(op: ArithOp, stack: seq<string>)
    requires Arithmetic(op, stack).1.Some?
    ensures PlainText(Arithmetic(op, stack).1.value)
  {
    hide PlainText, Stoi, ToString;
    OperandTextsArePlain();
    TooFewIsPlain(op);
  }

  lemma ArithKeepsGood(sess: Session, op: ArithOp)
    requires GoodStack(sess.stack)
    ensures GoodAction(ArithAction(sess, op))
  {
    OkReplyIsGood();
    hide PlainText, GoodReply, Stoi, ToString;
    var (stack, error) := Arithmetic(op, sess.stack);
    if error.Some? {
      ArithErrorIsPlain(op, sess.stack);
      ReplyOfText(FAILED, error.value);
    } else {
      var n := |sess.stack|;
      var l, r := Stoi(sess.stack[n - 2]), Stoi(sess.stack[n - 1]);
      ToStringIsValue(Wrap32(Exact(op, l.n, r.n)));
    }
  }

  lemma TopKeepsGood(sess: Session)
    requires GoodStack(sess.stack)
    ensures GoodAction(TopAction(sess))
  {
    if sess.stack == [] {
      StackTextsArePlain();
      ReplyOfText(FAILED, TOP_OF_EMPTY);
    } else {
      DataReply(Last(sess.stack));
    }
  }

  lemma FailureIsGood(sess: Session, text: string)
    requires GoodStack(sess.stack) && PlainText(text)
    ensures GoodAction(Failure(sess, text))
  {
    ReplyOfText(FAILED, text);
  }

  lemma ControlKeepsGood(sess: Session)
    requires GoodStack(sess.stack)
    ensures GoodAction(LoginAction(sess)) && GoodAction(BeginAction(sess)) && GoodAction(CommitAction(sess))
    ensures GoodAction(PopAction(sess))
    ensures forall name, key {:trigger SetAction(sess, name, key)} :: IsIdentifier(name) ==>
            GoodAction(SetAction(sess, name, key))
  {
    OkReplyIsGood();
    SessionTextsArePlain();
    StackTextsArePlain();
    FailureIsGood(sess, ALREADY_LOGGED_IN);
    FailureIsGood(sess, NOT_IN_TRANSACTION);
    FailureIsGood(sess, POP_OF_EMPTY);
    FailureIsGood(sess, STACK_EMPTY);
  }

  lemma DecodeErrorIsPlain(s: string)
    requires Decode(s).Err?
    ensures PlainText(Decode(s).error)
  {
    DecodeTextsArePlain();
  }

  // Whatever line arrives, a connection whose stack holds good values only gives good replies and
  // keeps holding good values only.
  lemma DispatchKeepsGood(sess: Session, line: string)
    requires GoodStack(sess.stack) && |line| <= MAX_LINE
    ensures GoodAction(Dispatch(sess, line))
  {
    match Decode(CString(line))
    case Err(e) =>
      DecodeErrorIsPlain(CString(line));
      ReplyOfText(ERROR, e);
    case Ok(m) =>
      if m.kind.PUSH? {
        PushedValueIsGood(line);
      }
      HandleKeepsGood(sess, m);
  }

  lemma HandleKeepsGood(sess: Session, m: Msg)
    requires GoodStack(sess.stack) && m.Valid()
    requires m.kind.PUSH? ==> GoodValue(m.args[0])
    ensures GoodAction(Handle(sess, m))
  {
    OkReplyIsGood();
    SessionTextsArePlain();
    FailureIsGood(sess, NOT_LOGGED_IN);
    ReplyOfText(ERROR, UNKNOWN_REQUEST);
    match m.kind
    case TOP => TopKeepsGood(sess);
    case ADD => ArithKeepsGood(sess, Add);
    case SUB => ArithKeepsGood(sess, Sub);
    case MUL => ArithKeepsGood(sess, Mul);
    case DIV => ArithKeepsGood(sess, Div);
    case LOGIN | BEGIN | COMMIT | POP | SET => ControlKeepsGood(sess);
    case _ =>
  }

  // The action of each stack request.
  lemma HandleChooses(sess: Session, m: Msg)
    requires m.Valid() && sess.loggedIn
    ensures m.kind.PUSH? ==> Handle(sess, m) == PushAction(sess, m.args[0])
    ensures m.kind.POP? ==> Handle(sess, m) == PopAction(sess)
    ensures m.kind.TOP? ==> Handle(sess, m) == TopAction(sess)
    ensures m.kind.ADD? ==> Handle(sess, m) == ArithAction(sess, Add)
    ensures m.kind.SUB? ==> Handle(sess, m) == ArithAction(sess, Sub)
    ensures m.kind.MUL? ==> Handle(sess, m) == ArithAction(sess, Mul)
    ensures m.kind.DIV? ==> Handle(sess, m) == ArithAction(sess, Div)
  {
  }

  lemma HandleShape(sess: Session, m: Msg)
    requires m.Valid()
    ensures var a := Handle(sess, m);
            && (a.Answer? ==> sess.inTx ==> a.sess.inTx)
            && (a.Start? ==> a.sess.inTx == sess.inTx)
            && (a.Commit? || a.Abort? ==> sess.inTx)
            && (a.Answer? && (sess.inTx ==> sess.loggedIn) ==> (a.sess.inTx ==> a.sess.loggedIn))
            && (a.Start? ==> a.sess.loggedIn == sess.loggedIn)
  {
  }

  // No request closes a transaction by itself, only an open one commits or aborts, and only a
  // connection that has logged in opens one.
  lemma DispatchShape(sess: Session, line: string)
    ensures var a := Dispatch(sess, line);
            && (a.Answer? ==> sess.inTx ==> a.sess.inTx)
            && (a.Start? ==> a.sess.inTx == sess.inTx)
            && (a.Commit? || a.Abort? ==> sess.inTx)
            && (a.Answer? && (sess.inTx ==> sess.loggedIn) ==> (a.sess.inTx ==> a.sess.loggedIn))
            && (a.Start? ==> a.sess.loggedIn == sess.loggedIn)
  {
    match Decode(CString(line))
    case Ok(m) => HandleShape(sess, m);
    case Err(_) =>
  }

  // The reply that ends a session always fits in one line, whatever is on the stack.
  lemma LastReplyIsGood(sess: Session, line: string)
    ensures var a := Dispatch(sess, line);
            a.Leave? ==> GoodReply(a.reply) && Encode(a.reply).Ok?
  {
    hide Handle;
    match Decode(CString(line))
    case Err(e) =>
      DecodeErrorIsPlain(CString(line));
      ReplyOfText(ERROR, e);
    case Ok(m) => LeaveOfHandle(sess, m);
  }

  lemma LeaveOfHandle(sess: Session, m: Msg)
    requires m.Valid()
    ensures var a := Handle(sess, m);
            a.Leave? ==> GoodReply(a.reply) && Encode(a.reply).Ok?
  {
    hide PlainText;
    OkReplyIsGood();
    SessionTextsArePlain();
    DecodeTextsArePlain();
    ReplyOfText(ERROR, UNKNOWN_REQUEST);
    ReplyOfText(ERROR, TOO_LONG);
  }

  // The replies a request can get by itself: OK, an encodable DATA, or a text of its own.
  lemma HandleReplies(sess: Session, m: Msg)
    requires m.Valid()
    ensures var a := Handle(sess, m);
            && (a.Answer? ==> a.reply == OK_REPLY || (a.reply.kind.DATA? && Encode(a.reply).Ok?)
                              || (a.reply.kind.FAILED? && |a.reply.args| == 1))
            && (a.Leave? ==> if m.kind.BYE? then a.reply == OK_REPLY else a.reply.kind.ERROR? && |a.reply.args| == 1)
            && (m.kind.BYE? ==> a.Leave?)
  {
  }
}
