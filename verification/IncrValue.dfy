/** The client program incr_value (incr_value.cpp): the requests it sends, and when it reports
    success. */
module IncrValue {
  import opened Messages
  import opened Serialization
  import opened Lines
  import opened Rio
  import opened Streams
  import opened Increment
  import opened Protocol
  import opened Text

  // The requests of one run, with and without -t.
  function Requests(transaction: bool, user: string, table: string, key: string): seq<Msg> {
    [Msg(LOGIN, [user])] + (if transaction then [Msg(BEGIN, [])] else [])
    + [Msg(GET, [table, key]), Msg(PUSH, ["1"]), Msg(ADD, []), Msg(SET, [table, key])]
    + (if transaction then [Msg(COMMIT, [])] else []) + [Msg(BYE, [])]
  }

  // With -t they are the script whose effect on the server the Increment module proves.
  lemma RequestsAreScript(x: Clients, user: string, i: nat)
    requires i < 8
    ensures |Requests(true, user, x.table, x.key)| == 8
    ensures Requests(true, user, x.table, x.key)[i] == Script(x, user, i)
  {
  }

  // What a run sends, and its exit code.
  datatype Dialogue = Dialogue(sent: seq<char>, code: int)

  function Said(text: seq<char>, d: Dialogue): Dialogue {
    d.(sent := text + d.sent)
  }

  predicate MeansOk(encoded: string) {
    Decode(encoded).Ok? && Decode(encoded).value.kind.OK?
  }

  // The C string the client decodes: the next response line, or, at end of file, whatever the
  // buffer still holds, because the count rio_readlineb returns is not looked at.
  function Seen(stream: seq<char>, buffer: string): string {
    var line := LineOf(stream, MAX_LINE);
    if line == [] then buffer else CString(line)
  }

  function AfterLine(stream: seq<char>): seq<char> {
    LineOfIsShortest(stream, MAX_LINE);
    stream[|LineOf(stream, MAX_LINE)|..]
  }

  // Request by request: each but the last must be answered with OK. The last is not awaited.
  function Talk(script: seq<Msg>, stream: seq<char>, buffer: string): Dialogue
    requires script != []
    decreases |script|
  {
    match Encode(script[0])
    case Err(_) => Dialogue([], 1)
    case Ok(text) =>
      if |script| == 1 then Dialogue(text, 0)
      else if MeansOk(Seen(stream, buffer)) then
        Said(text, Talk(script[1..], AfterLine(stream), Seen(stream, buffer)))
      else Dialogue(text, 1)
  }

  lemma SaidTwice(a: seq<char>, b: seq<char>, d: Dialogue)
    ensures Said(a, Said(b, d)) == Said(a + b, d)
  {
    assert a + (b + d.sent) == (a + b) + d.sent;
  }

  // A response line read into the buffer, or nothing read at end of file.
  lemma ResponseSeen(all: seq<char>, rest: seq<char>, before: seq<char>, after: seq<char>, n: nat)
    requires n < |after| && after[..n] == LineOf(all, MAX_LINE) && after[..n] + rest == all
    requires if n == 0 then after == before else after[n] == '\0'
    ensures CString(after) == Seen(all, CString(before)) && rest == AfterLine(all)
  {
    hide LineOf, CString;
    DropPrefix(after[..n], rest, all);
    if n > 0 {
      assert after == after[..n] + ['\0'] + after[n + 1..];
      CStringOfBuffer(after[..n], after[n + 1..]);
    }
  }

  // More is sent after what was said since out.
  lemma SaidMore(out: seq<char>, said: seq<char>, more: seq<char>)
    ensures ((out + said) + more)[|out|..] == said + more
    ensures (out + said) + more == out + (said + more)
  {
  }

  class Client {
    const fd: Descriptor
    const rio: RioBuffer
    const buf: array<char>

    ghost predicate Valid()
      reads this, rio
    {
      rio.Valid() && rio.fd == fd && buf.Length == MAX_ENCODED_LEN && rio.buf != buf
    }

    // The C string in the buffer. It is garbage before the first response.
    ghost function Buffer(): string
      reads buf
    {
      CString(buf[..])
    }

    // What the run would still say from here on.
    ghost function Rest(script: seq<Msg>): Dialogue
      requires Valid() && script != []
      reads this, rio, rio.buf, buf, fd`incoming
    {
      Talk(script, rio.Stream(), Buffer())
    }

    constructor (fd: Descriptor)
      ensures Valid() && this.fd == fd && rio.Stream() == fd.incoming
      ensures fresh(rio) && fresh(rio.buf) && fresh(buf)
    {
      this.fd := fd;
      this.rio := new RioBuffer(fd);
      this.buf := new char[MAX_ENCODED_LEN];
    }

    method ReadResponse() returns (ok: bool)
      requires Valid()
      modifies buf, rio`cnt, rio`ptr, rio.buf, fd`incoming, fd`readPlan
      ensures Valid() && Buffer() == Seen(old(rio.Stream()), old(Buffer()))
              && rio.Stream() == AfterLine(old(rio.Stream()))
      ensures ok <==> MeansOk(Buffer())
    {
      hide LineOf, CString, Decode, Seen, AfterLine;
      ghost var all, before := rio.Stream(), buf[..];
      var n := rio.ReadLine(buf, MAX_ENCODED_LEN);
      ResponseSeen(all, rio.Stream(), before, buf[..], n);
      var response := DecodeValue(CString(buf[..]));
      ok := response.Ok? && response.value.kind.OK?;
    }

    // One request and its response. The rest of the script says what a failure means.
    method Ask(m: Msg, ghost script: seq<Msg>) returns (ok: bool)
      requires Valid() && |script| > 1 && script[0] == m
      modifies buf, rio`cnt, rio`ptr, rio.buf, fd
      ensures Valid()
      ensures ok ==> !m.kind.NONE? && fd.outgoing == old(fd.outgoing) + LineText(m)
      ensures ok ==> !m.kind.NONE? && old(Rest(script)) == Said(LineText(m), Rest(script[1..]))
      ensures !ok ==> old(Rest(script)).code == 1 && fd.outgoing == old(fd.outgoing) + old(Rest(script)).sent
    {
      hide Seen, AfterLine, MeansOk;
      var message := new Message.Of(m);
      var encoded := EncodeMessage(message);
      if encoded.Err? {
        return false;
      }
      var n := fd.WriteN(encoded.value);
      ok := ReadResponse();
    }

    // The last request: its response is not read.
    method Tell(m: Msg) returns (code: int)
      requires Valid()
      modifies fd`outgoing, fd`writePlan
      ensures Valid() && code == Rest([m]).code && fd.outgoing == old(fd.outgoing) + Rest([m]).sent
    {
      var message := new Message.Of(m);
      var encoded := EncodeMessage(message);
      if encoded.Err? {
        return 1;
      }
      var n := fd.WriteN(encoded.value);
      return 0;
    }

    // What has been said so far, and what is left, make up the whole run.
    ghost predicate Midway(goal: Dialogue, out: seq<char>, script: seq<Msg>)
      reads this, rio, rio.buf, buf, fd
    {
      && Valid() && script != [] && out <= fd.outgoing
      && goal == Said(fd.outgoing[|out|..], Rest(script))
    }

    // One more request of the run.
    method Step(m: Msg, ghost script: seq<Msg>, ghost goal: Dialogue, ghost out: seq<char>) returns (ok: bool)
      requires Midway(goal, out, script) && |script| > 1 && script[0] == m
      modifies buf, rio`cnt, rio`ptr, rio.buf, fd
      ensures Valid()
      ensures ok ==> Midway(goal, out, script[1..])
      ensures !ok ==> goal.code == 1 && fd.outgoing == out + goal.sent
    {
      hide Talk, LineText;
      ghost var said := fd.outgoing[|out|..];
      ghost var before := Rest(script);
      assert fd.outgoing == out + said;
      ok := Ask(m, script);
      if ok {
        SaidTwice(said, LineText(m), Rest(script[1..]));
        SaidMore(out, said, LineText(m));
      } else {
        SaidMore(out, said, before.sent);
      }
    }

    method Finish(m: Msg, ghost goal: Dialogue, ghost out: seq<char>) returns (code: int)
      requires Midway(goal, out, [m])
      modifies fd`outgoing, fd`writePlan
      ensures Valid() && code == goal.code && fd.outgoing == out + goal.sent
    {
      hide Talk;
      ghost var said := fd.outgoing[|out|..];
      code := Tell(m);
      SaidMore(out, said, Rest([m]).sent);
    }

    // LOGIN and, with -t, BEGIN.
    method Open(transaction: bool, user: string, ghost script: seq<Msg>, ghost goal: Dialogue, ghost out: seq<char>)
      returns (ok: bool)
      requires |script| > 2 && script[0] == Msg(LOGIN, [user]) && (transaction ==> script[1] == Msg(BEGIN, []))
      requires Midway(goal, out, script)
      modifies buf, rio`cnt, rio`ptr, rio.buf, fd
      ensures Valid()
      ensures ok ==> Midway(goal, out, if transaction then script[1..][1..] else script[1..])
      ensures !ok ==> goal.code == 1 && fd.outgoing == out + goal.sent
    {
      hide Midway;
      ok := Step(Msg(LOGIN, [user]), script, goal, out);
      if ok && transaction {
        ok := Step(Msg(BEGIN, []), script[1..], goal, out);
      }
    }

    // GET, PUSH 1, ADD and SET.
    method Add(table: string, key: string, ghost tail: seq<Msg>, ghost goal: Dialogue, ghost out: seq<char>)
      returns (ok: bool)
      requires tail != []
      requires Midway(goal, out, Body(table, key) + tail)
      modifies buf, rio`cnt, rio`ptr, rio.buf, fd
      ensures Valid()
      ensures ok ==> Midway(goal, out, tail)
      ensures !ok ==> goal.code == 1 && fd.outgoing == out + goal.sent
    {
      hide Midway;
      ghost var s := Body(table, key) + tail;
      assert s[1..][1..][1..][1..] == tail;
      ok := Step(Msg(GET, [table, key]), s, goal, out);
      if ok {
        ok := Step(Msg(PUSH, ["1"]), s[1..], goal, out);
      }
      if ok {
        ok := Step(Msg(ADD, []), s[1..][1..], goal, out);
      }
      if ok {
        ok := Step(Msg(SET, [table, key]), s[1..][1..][1..], goal, out);
      }
    }

    // The program, once the connection is established: what it sends and returns is what Talk says, for
    // every stream of responses and every schedule of reads and writes.
    method IncrementKey(transaction: bool, user: string, table: string, key: string) returns (code: int)
      requires Valid()
      modifies buf, rio`cnt, rio`ptr, rio.buf, fd
      ensures code == old(Rest(Requests(transaction, user, table, key))).code
      ensures fd.outgoing == old(fd.outgoing) + old(Rest(Requests(transaction, user, table, key))).sent
    {
      hide Talk;
      ghost var script := Requests(transaction, user, table, key);
      ghost var goal, out := Rest(script), fd.outgoing;
      assert fd.outgoing[|out|..] == [] && Said([], goal) == goal;
      hide Midway;
      ghost var tail := if transaction then [Msg(COMMIT, []), Msg(BYE, [])] else [Msg(BYE, [])];
      assert (if transaction then script[1..][1..] else script[1..]) == Body(table, key) + tail;
      var ok := Open(transaction, user, script, goal, out);
      if ok {
        ok := Add(table, key, tail, goal, out);
      }
      if ok && transaction {
        ok := Step(Msg(COMMIT, []), tail, goal, out);
        assert tail[1..] == [Msg(BYE, [])];
      }
      if !ok {
        return 1;
      }
      code := Finish(Msg(BYE, []), goal, out);
    }
  }

  function Body(table: string, key: string): seq<Msg> {
    [Msg(GET, [table, key]), Msg(PUSH, ["1"]), Msg(ADD, []), Msg(SET, [table, key])]
  }

  // ---- what success means

  predicate AllEncode(script: seq<Msg>) {
    forall i {:trigger script[i]} :: 0 <= i < |script| ==> Encode(script[i]).Ok?
  }

  predicate FirstOk(replies: seq<Msg>, n: nat) {
    forall i {:trigger replies[i]} :: 0 <= i < n && i < |replies| ==> replies[i].kind.OK?
  }

  lemma NextResponse(replies: seq<Msg>, buffer: string)
    requires AllSendable(replies) && replies != []
    ensures Seen(StreamText(replies), buffer) == CString(LineText(replies[0]))
    ensures MeansOk(Seen(StreamText(replies), buffer)) <==> replies[0].kind.OK?
    ensures AfterLine(StreamText(replies)) == StreamText(replies[1..])
  {
    FirstLine(replies[0], StreamText(replies[1..]));
  }

  // The exit code is 0 exactly when every response that came, up to the last one awaited, was OK.
  // A response that is missing because the server has hung up counts as a repetition of the one
  // before it, and the very first one as the garbage in the buffer.
  lemma {:induction false} ExitCode(script: seq<Msg>, replies: seq<Msg>, buffer: string)
    requires script != [] && AllEncode(script) && AllSendable(replies)
    ensures Talk(script, StreamText(replies), buffer).code == 0
       <==> FirstOk(replies, |script| - 1) && (replies == [] && |script| > 1 ==> MeansOk(buffer))
    decreases |script|
  {
    hide Decode;
    assert Encode(script[0]).Ok?;
    if |script| > 1 {
      if replies == [] {
        assert Seen([], buffer) == buffer && AfterLine([]) == [];
        ExitCode(script[1..], [], buffer);
      } else {
        NextResponse(replies, buffer);
        ExitCode(script[1..], replies[1..], CString(LineText(replies[0])));
        assert FirstOk(replies, |script| - 1) <==> replies[0].kind.OK? && FirstOk(replies[1..], |script| - 2) by {
          assert forall i :: 0 <= i < |replies| - 1 ==> replies[1..][i] == replies[i + 1];
          assert forall i :: 0 < i < |replies| ==> replies[i] == replies[1..][i - 1];
        }
      }
    }
  }

  // So success does not mean that the increment was committed: a server that answers the LOGIN and
  // hangs up is enough.
  lemma SuccessWithoutCommit(user: string, table: string, key: string, garbage: string)
    requires AllEncode(Requests(true, user, table, key))
    ensures Talk(Requests(true, user, table, key), StreamText([OK_REPLY]), garbage).code == 0
  {
    OkSendable();
    ExitCode(Requests(true, user, table, key), [OK_REPLY], garbage);
  }

  lemma OkSendable()
    ensures AllSendable([OK_REPLY])
  {
    assert ArgsText([]) == [];
  }

  // With a response to every request up to COMMIT it does: exit code 0 means that each of the seven,
  // the COMMIT's included, was OK, and only then.
  lemma SuccessWithCommit(user: string, table: string, key: string, replies: seq<Msg>, buffer: string)
    requires AllEncode(Requests(true, user, table, key)) && AllSendable(replies) && |replies| >= 7
    ensures Talk(Requests(true, user, table, key), StreamText(replies), buffer).code == 0
       <==> forall i {:trigger replies[i]} :: 0 <= i < 7 ==> replies[i].kind.OK?
  {
    ExitCode(Requests(true, user, table, key), replies, buffer);
  }

  function ScriptText(script: seq<Msg>): seq<char>
    requires AllEncode(script)
  {
    if script == [] then [] else LineText(script[0]) + ScriptText(script[1..])
  }

  lemma ScriptTextStep(script: seq<Msg>, n: nat)
    requires n < |script| && AllEncode(script)
    ensures AllEncode(script[1..]) && AllEncode(script[1..][..n]) && AllEncode(script[..n + 1])
    ensures !script[0].kind.NONE?
    ensures ScriptText(script[..n + 1]) == LineText(script[0]) + if n == 0 then [] else ScriptText(script[1..][..n])
  {
    assert Encode(script[0]).Ok?;
    assert script[..n + 1][1..] == script[1..][..n] && script[..n + 1][0] == script[0];
  }

  lemma TalkStep(script: seq<Msg>, stream: seq<char>, buffer: string)
    requires script != [] && AllEncode(script)
    ensures !script[0].kind.NONE?
    ensures Talk(script, stream, buffer).sent
         == if |script| == 1 || !MeansOk(Seen(stream, buffer)) then LineText(script[0])
            else LineText(script[0]) + Talk(script[1..], AfterLine(stream), Seen(stream, buffer)).sent
  {
    hide MeansOk, Seen, AfterLine;
    assert Encode(script[0]).Ok?;
  }

  // What is left of the responses once the next one has been read.
  lemma NextReplies(replies: seq<Msg>, buffer: string) returns (rest: seq<Msg>)
    requires AllSendable(replies)
    ensures AllSendable(rest) && rest == if replies == [] then [] else replies[1..]
    ensures AfterLine(StreamText(replies)) == StreamText(rest)
    ensures replies != [] ==> (MeansOk(Seen(StreamText(replies), buffer)) <==> replies[0].kind.OK?)
  {
    rest := if replies == [] then [] else replies[1..];
    if replies != [] {
      NextResponse(replies, buffer);
    }
  }

  // The requests sent are the first ones of the script, each but the first after an OK to the one
  // before it, as long as there are responses.
  lemma {:induction false} SentInOrder(script: seq<Msg>, replies: seq<Msg>, buffer: string) returns (n: nat)
    requires script != [] && AllEncode(script) && AllSendable(replies)
    ensures 1 <= n <= |script| && AllEncode(script[..n])
    ensures Talk(script, StreamText(replies), buffer).sent == ScriptText(script[..n])
    ensures FirstOk(replies, n - 1)
    ensures n < |script| && n <= |replies| ==> !replies[n - 1].kind.OK?
    decreases |script|
  {
    hide Talk, ScriptText, LineText, StreamText, Seen, AfterLine, MeansOk, AllEncode, AllSendable;
    var rest := NextReplies(replies, buffer);
    TalkStep(script, StreamText(replies), buffer);
    ScriptTextStep(script, 0);
    if |script| == 1 || !MeansOk(Seen(StreamText(replies), buffer)) {
      n := 1;
    } else {
      var m := SentInOrder(script[1..], rest, Seen(StreamText(replies), buffer));
      n := m + 1;
      ScriptTextStep(script, m);
      OkBefore(replies, rest, m);
    }
  }

  lemma OkBefore(replies: seq<Msg>, rest: seq<Msg>, n: nat)
    requires n > 0 && rest == (if replies == [] then [] else replies[1..])
    requires replies != [] ==> replies[0].kind.OK?
    ensures FirstOk(rest, n - 1) ==> FirstOk(replies, n)
    ensures n <= |rest| ==> n + 1 <= |replies| && replies[n] == rest[n - 1]
  {
    assert forall i :: 0 < i < |replies| ==> replies[i] == rest[i - 1];
  }

  // ---- the server sees the client the Increment module assumes

  // What is left of a stream once a reader has taken n lines off it.
  function AfterLines(stream: seq<char>, n: nat): seq<char>
    decreases n
  {
    if n == 0 then stream else AfterLines(AfterLine(stream), n - 1)
  }

  lemma {:induction false} NothingAfter(n: nat)
    ensures AfterLines([], n) == []
  {
    if n > 0 {
      NothingAfter(n - 1);
    }
  }

  predicate Proper(m: Msg) {
    m.Valid() && LineSafe(m)
  }

  predicate AllProper(script: seq<Msg>) {
    forall i {:trigger script[i]} :: 0 <= i < |script| ==> Proper(script[i])
  }

  // The first n requests came whole: none was longer than a line.
  predicate CameWhole(script: seq<Msg>, n: nat) {
    forall i {:trigger script[i]} :: 0 <= i < n && i < |script| ==>
      script[i].kind.NONE? || |LineText(script[i])| <= MAX_LINE
  }

  // A line taken off a stream that starts with a text whose only newline is at its end, cut anywhere,
  // is that text, cut or whole.
  lemma LineOfCut(text: seq<char>, rest: seq<char>, cut: seq<char>)
    requires text != [] && text[|text| - 1] == '\n' && '\n' !in text[..|text| - 1] && cut <= text + rest
    ensures LineOf(cut, MAX_LINE) <= text
    ensures |text| <= MAX_LINE && |cut| < |text| ==> AfterLine(cut) == []
    ensures |text| <= MAX_LINE && |cut| >= |text| ==>
              cut[|text|..] <= rest && AfterLine(cut) == cut[|text|..]
  {
    hide LineOf, AfterLine;
    if |cut| < |text| {
      assert cut == text[..|cut|];
      CutText(text, cut);
    } else {
      assert cut == text + cut[|text|..];
      WholeText(text, cut[|text|..]);
    }
  }

  lemma CutText(text: seq<char>, cut: seq<char>)
    requires |cut| < |text| && '\n' !in text[..|text| - 1] && cut == text[..|cut|]
    ensures LineOf(cut, MAX_LINE) <= cut && (|text| <= MAX_LINE ==> AfterLine(cut) == [])
  {
    hide LineOf;
    LineOfIsShortest(cut, MAX_LINE);
    assert forall i :: 0 <= i < |cut| ==> cut[i] == text[..|text| - 1][i];
  }

  lemma WholeText(text: seq<char>, rest: seq<char>)
    requires text != [] && text[|text| - 1] == '\n' && '\n' !in text[..|text| - 1]
    ensures LineOf(text + rest, MAX_LINE) <= text
    ensures |text| <= MAX_LINE ==> AfterLine(text + rest) == rest
  {
    hide LineOf;
    if |text| <= MAX_LINE {
      LineOfTerminated(text, rest, MAX_LINE);
    } else {
      LineOfIsShortest(text + rest, MAX_LINE);
    }
  }

  // The line the server reads after n requests, however the client's bytes are cut off, is empty or
  // the beginning of the next request, and then all the responses so far were OK.
  lemma {:induction false} NextLineSent(script: seq<Msg>, replies: seq<Msg>, buffer: string, cut: seq<char>, n: nat)
    requires script != [] && AllProper(script) && AllSendable(replies) && n <= |replies| && CameWhole(script, n)
    requires cut <= Talk(script, StreamText(replies), buffer).sent
    ensures var line := LineOf(AfterLines(cut, n), MAX_LINE);
            line == [] || (n < |script| && FirstOk(replies, n) && line <= LineText(script[n]))
    decreases |script|
  {
    hide LineOf, LineText, AfterLine, Seen, MeansOk, Decode;
    var stream := StreamText(replies);
    var more := Talk(script, stream, buffer).sent;
    if Encode(script[0]).Err? {
      NothingAfter(n);
      EmptyLine();
    } else {
      SentFirst(script, stream, buffer);
      EncodedLine(script[0]);
      LineOfCut(LineText(script[0]), more[|LineText(script[0])|..], cut);
      if n > 0 {
        NextReplySeen(replies, buffer);
        if |script| == 1 || !replies[0].kind.OK? || |cut| < |LineText(script[0])| {
          assert AfterLine(cut) == [];
          NothingAfter(n - 1);
          EmptyLine();
        } else {
          NextLineSent(script[1..], replies[1..], Seen(stream, buffer), cut[|LineText(script[0])|..], n - 1);
          assert forall i :: 0 < i < |replies| ==> replies[i] == replies[1..][i - 1];
        }
      }
    }
  }

  lemma EmptyLine()
    ensures LineOf([], MAX_LINE) == [] && AfterLine([]) == []
  {
  }

  lemma NextReplySeen(replies: seq<Msg>, buffer: string)
    requires AllSendable(replies) && replies != []
    ensures MeansOk(Seen(StreamText(replies), buffer)) <==> replies[0].kind.OK?
    ensures AfterLine(StreamText(replies)) == StreamText(replies[1..])
  {
    NextResponse(replies, buffer);
  }

  lemma SentFirst(script: seq<Msg>, stream: seq<char>, buffer: string)
    requires script != [] && AllProper(script) && Encode(script[0]).Ok?
    ensures var first, sent := LineText(script[0]), Talk(script, stream, buffer).sent;
            && first <= sent
            && sent[|first|..] == if |script| == 1 || !MeansOk(Seen(stream, buffer)) then []
                                  else Talk(script[1..], AfterLine(stream), Seen(stream, buffer)).sent
  {
    hide MeansOk, Seen, AfterLine;
  }

  // The program is a client as NoLostUpdate assumes: whatever part of its bytes, given the responses
  // of this server so far, has arrived, the next line the server reads is one such a client may send.
  lemma ProgramIsClient(x: Clients, user: string, k: Connection, buffer: string, cut: seq<char>)
    requires x.Valid() && IsIdentifier(user) && AllSendable(k.replies) && |k.replies| == k.requests
    requires cut <= Talk(Requests(true, user, x.table, x.key), StreamText(k.replies), buffer).sent
    requires CameWhole(Requests(true, user, x.table, x.key), k.requests)
    ensures ClientSends(x, user, k, LineOf(AfterLines(cut, k.requests), MAX_LINE))
  {
    var script := Requests(true, user, x.table, x.key);
    ScriptIsProper(x, user);
    NextLineSent(script, k.replies, buffer, cut, k.requests);
    if k.requests < 8 {
      RequestsAreScript(x, user, k.requests);
    }
  }

  lemma ScriptIsProper(x: Clients, user: string)
    requires x.Valid() && IsIdentifier(user)
    ensures AllProper(Requests(true, user, x.table, x.key))
  {
    IdentifierIsValue(user);
    IdentifierIsValue(x.table);
    IdentifierIsValue(x.key);
  }
}
