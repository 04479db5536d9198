/** The operand stack evaluates postfix code: integer expressions compiled to requests. */
module Compiler {
  import opened Wrappers
  import opened Integers
  import opened Messages
  import opened Serialization
  import opened Lines
  import opened ValueStacks
  import opened Sessions
  import opened Protocol

  datatype Expr = Lit(n: int) | Bin(op: ArithOp, left: Expr, right: Expr)

  function Quotient(left: int, right: int): (q: int)
    requires right != 0
    ensures Computes(Div, left, right, q)
  {
    TruncDivMeaning(left, right);
    TruncDiv(left, right)
  }

  function Fitting(n: int): Option<int> {
    if InRange(n) then Some(n) else None
  }

  // The value under truncating division, when the literals and all intermediate results fit in 32
  // bits and no divisor is zero.
  function Value(e: Expr): Option<int> {
    match e
    case Lit(n) => Fitting(n)
    case Bin(op, left, right) =>
      var l, r := Value(left), Value(right);
      if l.None? || r.None? then None
      else match op
        case Add => Fitting(l.value + r.value)
        case Sub => Fitting(l.value - r.value)
        case Mul => Fitting(l.value * r.value)
        case Div => if r.value == 0 then None else Fitting(Quotient(l.value, r.value))
  }

  lemma ValueComputes(e: Expr)
    requires e.Bin? && Value(e).Some?
    ensures var l, r := Value(e.left), Value(e.right);
            && l.Some? && r.Some? && InRange(l.value) && InRange(r.value)
            && Computes(e.op, l.value, r.value, Value(e).value) && InRange(Value(e).value)
  {
  }

  function Operator(op: ArithOp): Msg {
    match op
    case Add => Msg(ADD, [])
    case Sub => Msg(SUB, [])
    case Mul => Msg(MUL, [])
    case Div => Msg(DIV, [])
  }

  // Postorder.
  function Compile(e: Expr): seq<Msg> {
    match e
    case Lit(n) => [Msg(PUSH, [ToString(n)])]
    case Bin(op, left, right) => Compile(left) + Compile(right) + [Operator(op)]
  }

  predicate Commands(ms: seq<Msg>) {
    forall i {:trigger ms[i]} :: 0 <= i < |ms| ==> !ms[i].kind.NONE?
  }

  // The connection after a client has sent the messages one by one.
  function Feed(k: Connection, ms: seq<Msg>): Connection
    requires Commands(ms)
  {
    if ms == [] then k else Receive(Feed(k, ms[..|ms| - 1]), LineText(ms[|ms| - 1]))
  }

  lemma {:induction false} FeedAppend(k: Connection, a: seq<Msg>, b: seq<Msg>)
    requires Commands(a)
    requires Commands(b)
    ensures Feed(k, a + b) == Feed(Feed(k, a), b)
  {
    if b == [] {
      assert a + b == a;
    } else {
      assert (a + b)[..|a + b| - 1] == a + b[..|b| - 1];
      FeedAppend(k, a, b[..|b| - 1]);
    }
  }

  lemma OperatorIsCommand(op: ArithOp)
    ensures !Operator(op).kind.NONE? && Commands([Operator(op)])
  {
  }

  lemma CommandsAppend(a: seq<Msg>, b: seq<Msg>)
    requires Commands(a) && Commands(b)
    ensures Commands(a + b)
  {
  }

  lemma {:induction false} CompiledCommands(e: Expr)
    ensures Commands(Compile(e))
  {
    if e.Bin? {
      CompiledCommands(e.left);
      CompiledCommands(e.right);
      CommandsAppend(Compile(e.left), Compile(e.right));
      CommandsAppend(Compile(e.left) + Compile(e.right), [Operator(e.op)]);
    }
  }

  // What n requests answered with OK leave, the stack aside.
  function Acknowledged(k: Connection, n: nat, stack: seq<string>): Connection {
    k.(sess := k.sess.(stack := stack), phase := Idle, requests := k.requests + n,
       replies := k.replies + seq(n, _ => OK_REPLY))
  }

  lemma ServedTwice(k: Connection, n: nat, m: nat, a: seq<string>, b: seq<string>)
    ensures Acknowledged(Acknowledged(k, n, a), m, b) == Acknowledged(k, n + m, b)
  {
    assert seq(n, _ => OK_REPLY) + seq(m, _ => OK_REPLY) == seq(n + m, _ => OK_REPLY);
    assert k.replies + seq(n, _ => OK_REPLY) + seq(m, _ => OK_REPLY)
           == k.replies + (seq(n, _ => OK_REPLY) + seq(m, _ => OK_REPLY));
  }

  lemma LineOfCommand(m: Msg)
    requires m.Valid() && LineSafe(m) && |LineText(m)| <= MAX_LINE
    ensures Decode(CString(LineText(m))) == Ok(m)
  {
    EncodedLine(m);
    CStringWithoutNul(LineText(m));
    DecodeUndoesEncode(m);
  }

  lemma OneServed(k: Connection, m: Msg, stack: seq<string>)
    requires m.Valid() && LineSafe(m) && |LineText(m)| <= MAX_LINE && k.phase.Idle?
    requires Handle(k.sess, m) == Answer(k.sess.(stack := stack), OK_REPLY)
    ensures Receive(k, LineText(m)) == Acknowledged(k, 1, stack)
  {
    hide Handle, Decode;
    LineOfCommand(m);
    assert seq(1, _ => OK_REPLY) == [OK_REPLY];
  }

  lemma LitServed(k: Connection, n: int)
    requires k.phase.Idle? && k.sess.loggedIn && InRange(n)
    ensures Receive(k, LineText(Msg(PUSH, [ToString(n)]))) == Acknowledged(k, 1, k.sess.stack + [ToString(n)])
  {
    ToStringIsValue(n);
    OneArgText(Msg(PUSH, [ToString(n)]));
    OneServed(k, Msg(PUSH, [ToString(n)]), k.sess.stack + [ToString(n)]);
  }

  // An operator uses the top as its right operand and what is below it as its left one.
  lemma OperatorServed(k: Connection, op: ArithOp, stack: seq<string>, left: int, right: int, v: int)
    requires k.phase.Idle? && k.sess.loggedIn && k.sess.stack == stack + [ToString(left), ToString(right)]
    requires InRange(left) && InRange(right) && Computes(op, left, right, v) && InRange(v)
    ensures Receive(k, LineText(Operator(op))) == Acknowledged(k, 1, stack + [ToString(v)])
  {
    hide Handle, ToString;
    OperatorLine(op);
    OperatorAction(k.sess, op, stack, left, right, v);
    OneServed(k, Operator(op), stack + [ToString(v)]);
  }

  lemma OperatorLine(op: ArithOp)
    ensures var m := Operator(op); m.Valid() && LineSafe(m) && |LineText(m)| <= MAX_LINE
  {
    assert ArgsText([]) == [];
  }

  lemma OperatorAction(sess: Session, op: ArithOp, stack: seq<string>, left: int, right: int, v: int)
    requires sess.loggedIn && sess.stack == stack + [ToString(left), ToString(right)]
    requires InRange(left) && InRange(right) && Computes(op, left, right, v) && InRange(v)
    ensures Operator(op).Valid()
    ensures Handle(sess, Operator(op)) == Answer(sess.(stack := stack + [ToString(v)]), OK_REPLY)
  {
    ArithmeticOnInts(op, stack, left, right, v);
    hide Arithmetic, ToString, Handle;
    HandleOfOperator(sess, op);
  }

  lemma HandleOfOperator(sess: Session, op: ArithOp)
    requires sess.loggedIn
    ensures Operator(op).Valid() && Handle(sess, Operator(op)) == ArithAction(sess, op)
  {
    hide ArithAction;
  }

  // Sent to an idle, logged-in connection, the postorder requests of an expression are all answered
  // with OK and leave its value, in decimal, on top of the stack as it was; nothing else changes.
  lemma {:induction false} CompiledCorrectly(k: Connection, e: Expr)
    requires k.phase.Idle? && k.sess.loggedIn && Value(e).Some?
    ensures Commands(Compile(e))
    ensures Feed(k, Compile(e)) == Acknowledged(k, |Compile(e)|, k.sess.stack + [ToString(Value(e).value)])
    decreases e
  {
    hide Receive, ToString, Operator, Computes;
    CompiledCommands(e);
    match e
    case Lit(n) =>
      LitServed(k, n);
      FeedOne(k, Msg(PUSH, [ToString(n)]));
    case Bin(op, left, right) =>
      CompiledCommands(left);
      CompiledCommands(right);
      ValueComputes(e);
      CompiledCorrectly(k, left);
      var k1 := Feed(k, Compile(left));
      CompiledCorrectly(k1, right);
      BinServed(k, op, Compile(left), Compile(right), Value(left).value, Value(right).value,
                Value(e).value);
  }

  // The operator after both operands have been served.
  lemma BinServed(k: Connection, op: ArithOp, l: seq<Msg>, r: seq<Msg>, left: int, right: int, v: int)
    requires k.phase.Idle? && k.sess.loggedIn
    requires Commands(l)
    requires Commands(r)
    requires InRange(left) && InRange(right) && Computes(op, left, right, v) && InRange(v)
    requires var a, b := k.sess.stack + [ToString(left)], ToString(right);
             var k1 := Acknowledged(k, |l|, a);
             Feed(k, l) == k1 && Feed(k1, r) == Acknowledged(k1, |r|, a + [b])
    ensures Commands(l + r + [Operator(op)])
    ensures Feed(k, l + r + [Operator(op)])
            == Acknowledged(k, |l| + |r| + 1, k.sess.stack + [ToString(v)])
  {
    hide Receive, ToString, Feed, Acknowledged, Operator;
    var stack := k.sess.stack;
    var a := stack + [ToString(left)];
    var ab := a + [ToString(right)];
    BothServed(k, l, r, a, ab);
    assert ab == stack + [ToString(left), ToString(right)];
    OperandsUsed(k, |l| + |r|, op, stack, left, right, v);
    OperatorIsCommand(op);
    CommandsAppend(l, r);
    CommandsAppend(l + r, [Operator(op)]);
    FeedAppend(k, l + r, [Operator(op)]);
  }

  lemma BothServed(k: Connection, l: seq<Msg>, r: seq<Msg>, a: seq<string>, ab: seq<string>)
    requires Commands(l)
    requires Commands(r)
    requires Feed(k, l) == Acknowledged(k, |l|, a)
             && Feed(Acknowledged(k, |l|, a), r) == Acknowledged(Acknowledged(k, |l|, a), |r|, ab)
    ensures Feed(k, l + r) == Acknowledged(k, |l| + |r|, ab)
  {
    hide Receive;
    FeedAppend(k, l, r);
    ServedTwice(k, |l|, |r|, a, ab);
  }

  lemma OperandsUsed(k: Connection, n: nat, op: ArithOp, stack: seq<string>, left: int, right: int, v: int)
    requires k.phase.Idle? && k.sess.loggedIn
    requires InRange(left) && InRange(right) && Computes(op, left, right, v) && InRange(v)
    ensures Feed(Acknowledged(k, n, stack + [ToString(left), ToString(right)]), [Operator(op)])
         == Acknowledged(k, n + 1, stack + [ToString(v)])
  {
    hide Receive, ToString;
    var k2 := Acknowledged(k, n, stack + [ToString(left), ToString(right)]);
    OperatorServed(k2, op, stack, left, right, v);
    FeedOne(k2, Operator(op));
    ServedTwice(k, n, 1, k2.sess.stack, stack + [ToString(v)]);
  }

  lemma FeedOne(k: Connection, m: Msg)
    requires !m.kind.NONE?
    ensures Feed(k, [m]) == Receive(k, LineText(m))
  {
    assert [m][..0] == [] && Feed(k, []) == k;
  }
}
