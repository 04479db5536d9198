/** Requests and responses: message.h and message.cpp. */
module Messages {
  import opened Text

  datatype MessageType =
    | NONE
    | LOGIN | CREATE | PUSH | POP | TOP | SET | GET
    | ADD | SUB | MUL | DIV | BEGIN | COMMIT | BYE
    | OK | FAILED | ERROR | DATA

  // The abstract value of a Message object.
  datatype Msg = Msg(kind: MessageType, args: seq<string>) {
    // The argument syntax each message type demands.
    predicate Valid() {
      match kind
      case NONE => false
      case LOGIN | CREATE => |args| == 1 && IsIdentifier(args[0])
      case PUSH | DATA => |args| == 1 && IsValue(args[0])
      case SET | GET => |args| == 2 && IsIdentifier(args[0]) && IsIdentifier(args[1])
      case FAILED | ERROR => |args| == 1
      case _ => args == []
    }

    // Free text is kept verbatim; every other argument is a blank-separated token.
    predicate FreeText() {
      kind.FAILED? || kind.ERROR?
    }
  }

  const OK_REPLY := Msg(OK, [])

  function FailedReply(text: string): Msg {
    Msg(FAILED, [text])
  }

  lemma ValidArgsAreValues(m: Msg)
    requires m.Valid() && !m.FreeText()
    ensures forall i :: 0 <= i < |m.args| ==> IsValue(m.args[i])
  {
    forall i | 0 <= i < |m.args|
      ensures IsValue(m.args[i])
    {
      if IsIdentifier(m.args[i]) {
        IdentifierIsValue(m.args[i]);
      }
    }
  }

  class Message {
    var kind: MessageType
    var args: seq<string>

    function Value(): Msg
      reads this
    {
      Msg(kind, args)
    }

    constructor ()
      ensures Value() == Msg(NONE, [])
    {
      kind, args := NONE, [];
    }

    constructor Of(m: Msg)
      ensures Value() == m
    {
      kind, args := m.kind, m.args;
    }

    method Assign(rhs: Message)
      modifies this
      ensures Value() == old(rhs.Value())
    {
      if this == rhs {
        return;
      }
      kind := rhs.kind;
      args := rhs.args;
    }

    method SetMessageType(newKind: MessageType)
      modifies this
      ensures Value() == old(Value()).(kind := newKind)
    {
      kind := newKind;
    }

    method PushArg(arg: string)
      modifies this
      ensures Value() == Msg(old(kind), old(args) + [arg])
    {
      args := args + [arg];
    }

    method IsValid() returns (ok: bool)
      ensures ok <==> Value().Valid()
    {
      match kind
      case LOGIN | CREATE =>
        if |args| != 1 {
          return false;
        }
        ok := CheckIdentifier(args[0]);
      case PUSH | DATA =>
        if |args| != 1 {
          return false;
        }
        ok := CheckValue(args[0]);
      case SET | GET =>
        if |args| != 2 {
          return false;
        }
        ok := CheckIdentifier(args[0]);
        if ok {
          ok := CheckIdentifier(args[1]);
        }
      case FAILED | ERROR =>
        ok := |args| == 1;
      case NONE =>
        ok := false;
      case _ =>
        ok := |args| == 0;
    }

    // The text of a response without the quotes a server may put around it.
    method GetQuotedText() returns (text: string)
      ensures args == [] ==> text == ""
      ensures forall t: string :: args != [] && args[0] == ['"'] + t + ['"'] ==> text == t
      ensures args != [] && (|args[0]| < 2 || args[0][0] != '"' || args[0][|args[0]| - 1] != '"') ==> text == args[0]
    {
      if args == [] {
        return "";
      }
      var arg := args[0];
      if |arg| >= 2 && arg[0] == '"' && arg[|arg| - 1] == '"' {
        text := arg[1..|arg| - 1];
        forall t: string | arg == ['"'] + t + ['"']
          ensures text == t
        {
          assert arg[1..|arg| - 1] == t;
        }
      } else {
        text := arg;
      }
    }
  }
}
