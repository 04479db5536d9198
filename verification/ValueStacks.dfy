/** The operand stack of a connection: value_stack.cpp, and the arithmetic requests on it. */
module ValueStacks {
  import opened Wrappers
  import opened Integers

  const TOP_OF_EMPTY := "fail to get top: The stack is empty"
  const POP_OF_EMPTY := "fail to pop: The stack is empty"

  class ValueStack {
    // The top is the last element.
    var vector: seq<string>

    constructor ()
      ensures vector == []
    {
      vector := [];
    }

    method IsEmpty() returns (empty: bool)
      ensures empty <==> vector == []
    {
      empty := |vector| == 0;
    }

    method Push(value: string)
      modifies this
      ensures vector == old(vector) + [value]
    {
      vector := vector + [value];
    }

    // An error leaves the stack as it is.
    method GetTop() returns (r: Result<string, string>)
      ensures vector == [] ==> r == Err(TOP_OF_EMPTY)
      ensures forall below: seq<string>, v: string :: vector == below + [v] ==> r == Ok(v)
    {
      if vector == [] {
        r := Err(TOP_OF_EMPTY);
      } else {
        r := Ok(vector[|vector| - 1]);
      }
    }

    method Pop() returns (error: Option<string>)
      modifies this
      ensures old(vector) == [] ==> error == Some(POP_OF_EMPTY) && vector == []
      ensures old(vector) != [] ==> error == None && old(vector) == vector + [old(vector)[|old(vector)| - 1]]
    {
      if vector == [] {
        error := Some(POP_OF_EMPTY);
      } else {
        vector := vector[..|vector| - 1];
        error := None;
      }
    }

    method GetNumOfStack() returns (n: nat)
      ensures n == |vector|
    {
      n := |vector|;
    }
  }

  datatype ArithOp = Add | Sub | Mul | Div

  // The mathematical value of an operation; division truncates toward zero.
  function Exact(op: ArithOp, left: int, right: int): int
    requires op.Div? ==> right != 0
  {
    match op
    case Add => left + right
    case Sub => left - right
    case Mul => left * right
    case Div => TruncDiv(left, right)
  }

  const TOO_FEW := "the number of the stack is too few to "

  function OperationName(op: ArithOp): string {
    match op
    case Add => "add"
    case Sub => "sub"
    case Mul => "mul"
    case Div => "div"
  }

  function TooFew(op: ArithOp): string {
    TOO_FEW + OperationName(op)
  }

  const NOT_AN_INTEGER := "Invalid operand, not an integer"
  const OPERAND_OUT_OF_RANGE := "Invalid operand, number is out of range"
  const DIVISION_BY_ZERO := "the division is 0"

  function ParseError(p: Parsed): Option<string> {
    match p
    case Number(_) => None
    case NotANumber => Some(NOT_AN_INTEGER)
    case OutOfRange => Some(OPERAND_OUT_OF_RANGE)
  }

  // The result of an operation on two operand texts, the left one parsed first.
  function Operate(op: ArithOp, left: string, right: string): Result<string, string> {
    var l, r := Stoi(left), Stoi(right);
    if ParseError(l).Some? then Err(ParseError(l).value)
    else if ParseError(r).Some? then Err(ParseError(r).value)
    else if op.Div? && r.n == 0 then Err(DIVISION_BY_ZERO)
    else Ok(ToString(Wrap32(Exact(op, l.n, r.n))))
  }

  // The stack after an arithmetic request, and the error it raises. Both operands are gone even
  // when one of them does not parse.
  function Arithmetic(op: ArithOp, stack: seq<string>): (seq<string>, Option<string>) {
    var n := |stack|;
    if n < 2 then (stack, Some(TooFew(op))) else
      match Operate(op, stack[n - 2], stack[n - 1])
      case Ok(v) => (stack[..n - 2] + [v], None)
      case Err(e) => (stack[..n - 2], Some(e))
  }

  // What an operation has to compute. A quotient leaves a remainder that is smaller than the divisor
  // and carries the dividend's sign.
  predicate Computes(op: ArithOp, left: int, right: int, v: int) {
    match op
    case Add => v == left + right
    case Sub => v == left - right
    case Mul => v == left * right
    case Div =>
      && right != 0 && Abs(left - v * right) < Abs(right)
      && (left >= 0 ==> left - v * right >= 0) && (left <= 0 ==> left - v * right <= 0)
  }

  // It computes one number.
  lemma ComputesOne(op: ArithOp, left: int, right: int, v: int, u: int)
    requires Computes(op, left, right, v) && Computes(op, left, right, u)
    ensures v == u
  {
    if op.Div? {
      var a, b := left - v * right, left - u * right;
      assert a - b == (u - v) * right;
      if u != v {
        Multiple(u - v, right);
        assert false;
      }
    }
  }

  lemma Multiple(k: int, n: int)
    requires k != 0
    ensures Abs(k * n) >= Abs(n)
  {
    if k >= 1 {
      assert n >= 0 ==> k * n >= n;
      assert n <= 0 ==> k * n <= n;
    } else {
      assert n >= 0 ==> k * n <= -n;
      assert n <= 0 ==> k * n >= -n;
    }
  }

  lemma ExactComputes(op: ArithOp, left: int, right: int)
    requires op.Div? ==> right != 0
    ensures Computes(op, left, right, Exact(op, left, right))
  {
    if op.Div? {
      TruncDivMeaning(left, right);
    }
  }

  // With two ints on top, the earlier one as the left operand, and a result that fits, the result's
  // text replaces them.
  lemma ArithmeticOnInts(op: ArithOp, stack: seq<string>, left: int, right: int, v: int)
    requires InRange(left) && InRange(right) && Computes(op, left, right, v) && InRange(v)
    ensures Arithmetic(op, stack + [ToString(left), ToString(right)]) == (stack + [ToString(v)], None)
  {
    StoiUndoesToString(left);
    StoiUndoesToString(right);
    TopTwo(stack, ToString(left), ToString(right));
    ExactComputes(op, left, right);
    ComputesOne(op, left, right, v, Exact(op, left, right));
    hide Stoi, ToString, Exact, Computes;
  }

  lemma TopTwo(stack: seq<string>, a: string, b: string)
    ensures var s, n := stack + [a, b], |stack|;
            |s| == n + 2 && s[n] == a && s[n + 1] == b && s[..n] == stack
  {
  }
}
