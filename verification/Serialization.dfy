/** The wire format: message_serialization.cpp. */
module Serialization {
  import opened Wrappers
  import opened Text
  import opened Messages

  // Longest encoded message, its newline included (message.h:41).
  const MAX_ENCODED_LEN: nat := 1024

  const TOO_LONG := "Encoded message exceeds maximum length"
  const NO_NEWLINE := "Message is not terminated by newline"
  const EMPTY_MESSAGE := "Message is empty"
  const UNKNOWN_COMMAND := "Unknown command"
  const BAD_FORMAT := "Invalid message format for the given type"
  const NO_TYPE := "Cannot encode message with invalid or NONE type"

  function CommandText(kind: MessageType): string
    requires !kind.NONE?
  {
    match kind
    case LOGIN => "LOGIN"
    case CREATE => "CREATE"
    case PUSH => "PUSH"
    case POP => "POP"
    case TOP => "TOP"
    case SET => "SET"
    case GET => "GET"
    case ADD => "ADD"
    case SUB => "SUB"
    case MUL => "MUL"
    case DIV => "DIV"
    case BEGIN => "BEGIN"
    case COMMIT => "COMMIT"
    case BYE => "BYE"
    case OK => "OK"
    case FAILED => "FAILED"
    case ERROR => "ERROR"
    case DATA => "DATA"
  }

  function CommandType(s: string): Option<MessageType> {
    if s == "LOGIN" then Some(LOGIN)
    else if s == "CREATE" then Some(CREATE)
    else if s == "PUSH" then Some(PUSH)
    else if s == "POP" then Some(POP)
    else if s == "TOP" then Some(TOP)
    else if s == "SET" then Some(SET)
    else if s == "GET" then Some(GET)
    else if s == "ADD" then Some(ADD)
    else if s == "SUB" then Some(SUB)
    else if s == "MUL" then Some(MUL)
    else if s == "DIV" then Some(DIV)
    else if s == "BEGIN" then Some(BEGIN)
    else if s == "COMMIT" then Some(COMMIT)
    else if s == "BYE" then Some(BYE)
    else if s == "OK" then Some(OK)
    else if s == "FAILED" then Some(FAILED)
    else if s == "ERROR" then Some(ERROR)
    else if s == "DATA" then Some(DATA)
    else None
  }

  lemma CommandTypeOfText(kind: MessageType)
    requires !kind.NONE?
    ensures CommandType(CommandText(kind)) == Some(kind)
  {
    // Commands of one length differ in their first two characters.
    var s := CommandText(kind);
    assert |s| >= 2 && s[0] == s[0] && s[1] == s[1];
  }

  lemma CommandTextOfType(s: string)
    requires CommandType(s).Some?
    ensures !CommandType(s).value.NONE? && CommandText(CommandType(s).value) == s
  {
  }

  lemma CommandTextShape(kind: MessageType)
    requires !kind.NONE?
    ensures NoSpace(CommandText(kind)) && 2 <= |CommandText(kind)| <= 6
    ensures '\0' !in CommandText(kind) && '\n' !in CommandText(kind)
  {
  }

  // Each argument preceded by one blank.
  function ArgsText(args: seq<string>): string {
    if args == [] then [] else [' '] + args[0] + ArgsText(args[1..])
  }

  lemma {:induction false} ArgsTextAppend(args: seq<string>, arg: string)
    ensures ArgsText(args + [arg]) == ArgsText(args) + [' '] + arg
  {
    if args == [] {
      assert [arg][1..] == [] && ArgsText([arg][1..]) == [];
    } else {
      assert (args + [arg])[1..] == args[1..] + [arg];
      ArgsTextAppend(args[1..], arg);
    }
  }

  function LineText(m: Msg): string
    requires !m.kind.NONE?
  {
    CommandText(m.kind) + ArgsText(m.args) + ['\n']
  }

  function Encode(m: Msg): Result<string, string> {
    if m.kind.NONE? then Err(NO_TYPE)
    else if |LineText(m)| > MAX_ENCODED_LEN then Err(TOO_LONG)
    else Ok(LineText(m))
  }

  method EncodeMessage(msg: Message) returns (r: Result<string, string>)
    ensures r == Encode(msg.Value())
  {
    if msg.kind.NONE? {
      return Err(NO_TYPE);
    }
    var text := CommandText(msg.kind);
    for i := 0 to |msg.args|
      invariant text == CommandText(msg.kind) + ArgsText(msg.args[..i])
    {
      ArgsTextAppend(msg.args[..i], msg.args[i]);
      assert msg.args[..i + 1] == msg.args[..i] + [msg.args[i]];
      text := text + [' '];
      text := text + msg.args[i];
    }
    assert msg.args[..|msg.args|] == msg.args;
    text := text + ['\n'];
    if |text| > MAX_ENCODED_LEN {
      return Err(TOO_LONG);
    }
    return Ok(text);
  }

  // The maximal runs of characters that are not white space.
  function Tokens(s: string): seq<string>
    decreases |s|
  {
    SkipSpaceSplits(s);
    var u := SkipSpace(s);
    if u == [] then [] else
      WordSplits(u);
      [Word(u)] + Tokens(u[|Word(u)|..])
  }

  // Position of the first blank (not of other white space), or the length.
  function FirstBlank(s: string): (i: nat)
    ensures i <= |s| && (i < |s| ==> s[i] == ' ') && ' ' !in s[..i]
  {
    if s == [] || s[0] == ' ' then 0 else 1 + FirstBlank(s[1..])
  }

  function ArgsOf(command: string, rest: string): seq<string> {
    if command == "FAILED" || command == "ERROR" then [rest] else Tokens(rest)
  }

  function ParseLine(line: string): Result<Msg, string> {
    if line == [] then Err(EMPTY_MESSAGE) else
      var i := FirstBlank(line);
      var args := if i == |line| then [] else ArgsOf(line[..i], line[i + 1..]);
      match CommandType(line[..i])
      case None => Err(UNKNOWN_COMMAND)
      case Some(kind) => Ok(Msg(kind, args))
  }

  // Everything decode does before it asks whether the message is valid.
  function Parse(s: string): Result<Msg, string> {
    if |s| > MAX_ENCODED_LEN then Err(TOO_LONG)
    else if s == [] || s[|s| - 1] != '\n' then Err(NO_NEWLINE)
    else ParseLine(SkipSpace(s[..|s| - 1]))
  }

  function Decode(s: string): Result<Msg, string> {
    match Parse(s)
    case Err(e) => Err(e)
    case Ok(m) => if m.Valid() then Ok(m) else Err(BAD_FORMAT)
  }

  method FindBlank(s: string) returns (i: nat)
    ensures i == FirstBlank(s)
  {
    i := 0;
    while i < |s| && s[i] != ' '
      invariant i <= |s| && FirstBlank(s) == i + FirstBlank(s[i..])
    {
      assert s[i..][1..] == s[i + 1..];
      i := i + 1;
    }
  }

  lemma TokensOfSkip(s: string)
    ensures Tokens(SkipSpace(s)) == Tokens(s) && SkipSpace(SkipSpace(s)) == SkipSpace(s)
  {
    SkipSpaceSplits(s);
  }

  lemma TokensStep(u: string)
    requires u != [] && SkipSpace(u) == u
    ensures 0 < |Word(u)| <= |u|
    ensures Tokens(u) == [Word(u)] + Tokens(u[|Word(u)|..])
  {
    SkipSpaceSplits(u);
    WordSplits(u);
  }

  method SplitTokens(s: string) returns (args: seq<string>)
    ensures args == Tokens(s)
  {
    args := [];
    var rest := SkipSpace(s);
    TokensOfSkip(s);
    while rest != []
      invariant SkipSpace(rest) == rest
      invariant args + Tokens(rest) == Tokens(s)
      decreases |rest|
    {
      TokensStep(rest);
      var token := Word(rest);
      var tail := rest[|token|..];
      assert args + ([token] + Tokens(tail)) == (args + [token]) + Tokens(tail);
      args := args + [token];
      rest := SkipSpace(tail);
      TokensOfSkip(tail);
      SkipSpaceSplits(tail);
    }
    assert Tokens([]) == [];
  }

  // Leading white space of any kind is skipped.
  method SkipLeading(s: string) returns (line: string)
    ensures line == SkipSpace(s)
  {
    var start := 0;
    while start < |s| && IsSpace(s[start])
      invariant 0 <= start <= |s| && SkipSpace(s) == SkipSpace(s[start..])
    {
      assert s[start..][1..] == s[start + 1..];
      start := start + 1;
    }
    line := s[start..];
  }

  // The command and the arguments of a line.
  method SplitLine(line: string) returns (command: string, args: seq<string>)
    requires line != []
    ensures match CommandType(command)
            case None => ParseLine(line) == Err(UNKNOWN_COMMAND)
            case Some(kind) => ParseLine(line) == Ok(Msg(kind, args))
  {
    hide CommandType, Tokens;
    args := [];
    var i := FindBlank(line);
    command := line[..i];
    if i < |line| {
      if command == "FAILED" || command == "ERROR" {
        args := [line[i + 1..]];
      } else {
        args := SplitTokens(line[i + 1..]);
      }
    }
  }

  // The message object is overwritten with a type and its arguments.
  method Overwrite(msg: Message, kind: MessageType, args: seq<string>)
    modifies msg
    ensures msg.Value() == Msg(kind, args)
  {
    var blank := new Message();
    msg.Assign(blank);
    msg.SetMessageType(kind);
    for j := 0 to |args|
      invariant msg.Value() == Msg(kind, args[..j])
    {
      msg.PushArg(args[j]);
    }
    assert args[..|args|] == args;
  }

  // On success msg holds the decoded message. A failure before the command is known leaves msg
  // alone; an invalid message has already overwritten it.
  method DecodeMessage(encoded: string, msg: Message) returns (error: Option<string>)
    modifies msg
    ensures error == match Decode(encoded) case Ok(_) => None case Err(e) => Some(e)
    ensures match Parse(encoded)
            case Ok(m) => msg.Value() == m
            case Err(_) => msg.Value() == old(msg.Value())
  {
    hide CommandType, ParseLine, SkipSpace;
    if |encoded| > MAX_ENCODED_LEN {
      return Some(TOO_LONG);
    }
    if encoded == [] || encoded[|encoded| - 1] != '\n' {
      return Some(NO_NEWLINE);
    }
    var line := SkipLeading(encoded[..|encoded| - 1]);
    if line == [] {
      NothingToParse();
      return Some(EMPTY_MESSAGE);
    }
    var command, args := SplitLine(line);
    var kind := CommandType(command);
    if kind.None? {
      return Some(UNKNOWN_COMMAND);
    }
    Overwrite(msg, kind.value, args);
    var valid := msg.IsValid();
    return if valid then None else Some(BAD_FORMAT);
  }

  lemma NothingToParse()
    ensures ParseLine([]) == Err(EMPTY_MESSAGE)
  {
  }

  // decode into a message object of its own.
  method DecodeNew(encoded: string) returns (req: Message, error: Option<string>)
    ensures fresh(req)
    ensures match Decode(encoded)
            case Ok(m) => error == None && req.Value() == m
            case Err(e) => error == Some(e)
  {
    req := new Message();
    error := DecodeMessage(encoded, req);
  }

  // ---- decode undoes encode

  lemma {:induction false} FirstBlankAfterWord(w: string, rest: string)
    requires NoSpace(w) && (rest == [] || rest[0] == ' ')
    ensures FirstBlank(w + rest) == |w|
  {
    if w == [] {
      assert w + rest == rest;
    } else {
      assert (w + rest)[1..] == w[1..] + rest;
      FirstBlankAfterWord(w[1..], rest);
    }
  }

  lemma TokensSkipOne(s: string)
    requires s != [] && IsSpace(s[0])
    ensures Tokens(s) == Tokens(s[1..])
  {
  }

  lemma {:induction false} TokensOfArgsText(args: seq<string>)
    requires forall i :: 0 <= i < |args| ==> IsValue(args[i])
    ensures Tokens(ArgsText(args)) == args
  {
    if args != [] {
      var rest := ArgsText(args[1..]);
      var u := args[0] + rest;
      assert ArgsText(args) == [' '] + u && ([' '] + u)[1..] == u;
      TokensSkipOne(ArgsText(args));
      WordOfPrefix(args[0], rest);
      assert u[|args[0]|..] == rest;
      TokensOfArgsText(args[1..]);
    }
  }

  // The command and the argument part of a printed line are found again.
  lemma PrintedLineSplits(m: Msg)
    requires !m.kind.NONE?
    ensures var c, a := CommandText(m.kind), ArgsText(m.args);
            && FirstBlank(c + a) == |c|
            && (c + a)[..|c|] == c
            && CommandType(c) == Some(m.kind)
            && (a == [] <==> m.args == [])
            && (a != [] ==> a[0] == ' ' && (c + a)[|c| + 1..] == a[1..])
  {
    var c, a := CommandText(m.kind), ArgsText(m.args);
    CommandTextShape(m.kind);
    CommandTypeOfText(m.kind);
    FirstBlankAfterWord(c, a);
  }

  lemma PrintedArgsParse(m: Msg)
    requires m.Valid() && m.args != []
    ensures ArgsOf(CommandText(m.kind), ArgsText(m.args)[1..]) == m.args
  {
    var c, a := CommandText(m.kind), ArgsText(m.args);
    CommandTypeOfText(m.kind);
    if m.FreeText() {
      assert ArgsText(m.args[1..]) == [];
      assert a == [' '] + m.args[0];
      assert [m.args[0]] == m.args;
    } else {
      CommandTypeOfText(FAILED);
      CommandTypeOfText(ERROR);
      ValidArgsAreValues(m);
      TokensOfArgsText(m.args);
      TokensSkipOne(a);
    }
  }

  lemma ParseLineOfText(m: Msg)
    requires m.Valid()
    ensures ParseLine(CommandText(m.kind) + ArgsText(m.args)) == Ok(m)
  {
    PrintedLineSplits(m);
    if m.args != [] {
      PrintedArgsParse(m);
    }
  }

  // For every valid message that can be encoded, free text included, decode gives it back.
  lemma DecodeUndoesEncode(m: Msg)
    requires m.Valid() && Encode(m).Ok?
    ensures Decode(Encode(m).value) == Ok(m)
  {
    var s := Encode(m).value;
    var line := CommandText(m.kind) + ArgsText(m.args);
    assert s[..|s| - 1] == line;
    CommandTextShape(m.kind);
    assert SkipSpace(line) == line;
    ParseLineOfText(m);
  }

  lemma EncodeInjective(m: Msg, n: Msg)
    requires m.Valid() && n.Valid() && Encode(m).Ok? && Encode(m) == Encode(n)
    ensures m == n
  {
    DecodeUndoesEncode(m);
    DecodeUndoesEncode(n);
  }

  // ---- printing a parsed line is a normal form

  lemma {:induction false} TokensFit(s: string)
    ensures |ArgsText(Tokens(s))| <= |s| + 1
    decreases |s|
  {
    SkipSpaceSplits(s);
    var u := SkipSpace(s);
    if u != [] {
      WordSplits(u);
      var rest := u[|Word(u)|..];
      SkipSpaceSplits(rest);
      assert Tokens(s)[1..] == Tokens(rest);
      if rest == [] {
        assert Tokens(rest) == [] && ArgsText(Tokens(rest)) == [];
      } else {
        assert rest[0] == u[|Word(u)|] && IsSpace(rest[0]);
        TokensSkipOne(rest);
        TokensFit(rest[1..]);
      }
    }
  }

  // The printed text of a parsed line is no longer than the line.
  lemma ReprintFits(line: string)
    requires ParseLine(line).Ok? && ParseLine(line).value.Valid()
    ensures var m := ParseLine(line).value; |CommandText(m.kind) + ArgsText(m.args)| <= |line|
  {
    var m := ParseLine(line).value;
    var i := FirstBlank(line);
    CommandTextOfType(line[..i]);
    if i < |line| {
      var rest := line[i + 1..];
      if line[..i] == "FAILED" || line[..i] == "ERROR" {
        assert m.args == [rest] && ArgsText(m.args[1..]) == [];
      } else {
        TokensFit(rest);
      }
    }
  }

  // A line that decodes to m re-encodes to a text that is no longer, that decodes to m again, and
  // that is its own re-encoding.
  lemma NormalForm(s: string)
    requires Decode(s).Ok?
    ensures var m := Decode(s).value;
            && m.Valid()
            && Encode(m).Ok?
            && |Encode(m).value| <= |s|
            && Decode(Encode(m).value) == Ok(m)
            && Encode(Decode(Encode(m).value).value) == Encode(m)
  {
    var m := Decode(s).value;
    SkipSpaceSplits(s[..|s| - 1]);
    ReprintFits(SkipSpace(s[..|s| - 1]));
    DecodeUndoesEncode(m);
  }

  // ---- what may cross a line-oriented, NUL-terminated buffer

  // The C string that starts a buffer: everything before the first NUL.
  function CString(s: string): string {
    if s == [] || s[0] == '\0' then [] else [s[0]] + CString(s[1..])
  }

  lemma {:induction false} CStringWithoutNul(s: string)
    requires '\0' !in s
    ensures CString(s) == s
  {
    if s != [] {
      CStringWithoutNul(s[1..]);
    }
  }

  predicate LineSafe(m: Msg) {
    forall i :: 0 <= i < |m.args| ==> '\n' !in m.args[i] && '\0' !in m.args[i]
  }

  lemma {:induction false} ArgsTextSafe(args: seq<string>)
    requires forall i :: 0 <= i < |args| ==> '\n' !in args[i] && '\0' !in args[i]
    ensures '\n' !in ArgsText(args) && '\0' !in ArgsText(args)
  {
    if args != [] {
      ArgsTextSafe(args[1..]);
    }
  }

  // An encoded line-safe message has one newline, at its end, and no NUL.
  lemma EncodedLine(m: Msg)
    requires !m.kind.NONE? && LineSafe(m)
    ensures var s := LineText(m); s != [] && s[|s| - 1] == '\n' && '\n' !in s[..|s| - 1] && '\0' !in s
  {
    CommandTextShape(m.kind);
    ArgsTextSafe(m.args);
    assert LineText(m)[..|LineText(m)| - 1] == CommandText(m.kind) + ArgsText(m.args);
  }

  // Decoding invents no characters: one that is not in the line is in none of the arguments.
  lemma DecodedArgsFrom(s: string, c: char)
    requires Decode(s).Ok? && c !in s
    ensures forall i :: 0 <= i < |Decode(s).value.args| ==> c !in Decode(s).value.args[i]
  {
    SkipSpaceSplits(s[..|s| - 1]);
    var line := SkipSpace(s[..|s| - 1]);
    var i := FirstBlank(line);
    if i < |line| {
      TokensFrom(line[i + 1..], c);
    }
  }

  lemma {:induction false} TokensFrom(s: string, c: char)
    requires c !in s
    ensures forall i :: 0 <= i < |Tokens(s)| ==> c !in Tokens(s)[i]
    decreases |s|
  {
    SkipSpaceSplits(s);
    var u := SkipSpace(s);
    if u != [] {
      WordSplits(u);
      TokensFrom(u[|Word(u)|..], c);
    }
  }
}
