/** A stream of encoded messages, cut into chunks in any way, comes back as the same messages. */
module Streams {
  import opened Wrappers
  import opened Messages
  import opened Serialization
  import opened Lines
  import opened Sessions
  import opened Tables
  import opened Handlers
  import opened Rio

  // What decode makes of the lines of a stream, up to end of file.
  function Received(stream: seq<char>): seq<Result<Msg, string>>
    decreases |stream|
  {
    LineOfIsShortest(stream, MAX_LINE);
    var line := LineOf(stream, MAX_LINE);
    if line == [] then [] else [Decode(CString(line))] + Received(stream[|line|..])
  }

  lemma ReceivedUnfolds(stream: seq<char>)
    ensures var line := LineOf(stream, MAX_LINE);
            |line| <= |stream|
            && Received(stream) == if line == [] then [] else [Decode(CString(line))] + Received(stream[|line|..])
  {
    LineOfIsShortest(stream, MAX_LINE);
  }

  method DecodeValue(encoded: string) returns (r: Result<Msg, string>)
    ensures r == Decode(encoded)
  {
    var msg := new Message();
    var error := DecodeMessage(encoded, msg);
    r := if error.Some? then Err(error.value) else Ok(msg.Value());
  }

  lemma OneMore<T>(a: seq<T>, x: T, b: seq<T>)
    ensures a + ([x] + b) == (a + [x]) + b
  {
  }

  // Repeated rio_readlineb and decode, whatever the schedule of the reads underneath.
  method ReceiveAll(rio: RioBuffer) returns (received: seq<Result<Msg, string>>)
    requires rio.Valid()
    modifies rio`cnt, rio`ptr, rio.buf, rio.fd`incoming, rio.fd`readPlan
    ensures rio.Valid() && rio.Stream() == []
    ensures received == Received(old(rio.Stream()))
  {
    hide Received, Decode, LineOf, CString;
    ghost var all, rest := Received(rio.Stream()), rio.Stream();
    received := [];
    while true
      invariant rio.Valid() && rest == rio.Stream() && received + Received(rest) == all
      decreases |rest|
    {
      ReceivedUnfolds(rest);
      var n, encoded, line := NextLine(rio);
      if n == 0 {
        return;
      }
      var next := DecodeValue(encoded);
      rest := rio.Stream();
      OneMore(received, next, Received(rest));
      received := received + [next];
    }
  }

  predicate Sendable(m: Msg) {
    m.Valid() && LineSafe(m) && |LineText(m)| <= MAX_LINE
  }

  predicate AllSendable(ms: seq<Msg>) {
    forall i {:trigger ms[i]} :: 0 <= i < |ms| ==> Sendable(ms[i])
  }

  function StreamText(ms: seq<Msg>): seq<char>
    requires AllSendable(ms)
  {
    if ms == [] then [] else LineText(ms[0]) + StreamText(ms[1..])
  }

  // The first message of a stream is the first line, and it decodes to that message.
  lemma FirstLine(m: Msg, rest: seq<char>)
    requires Sendable(m)
    ensures LineText(m) != [] && LineOf(LineText(m) + rest, MAX_LINE) == LineText(m)
    ensures Decode(CString(LineText(m))) == Ok(m)
  {
    EncodedLine(m);
    LineOfTerminated(LineText(m), rest, MAX_LINE);
    CStringWithoutNul(LineText(m));
    DecodeUndoesEncode(m);
  }

  function Oks(ms: seq<Msg>): seq<Result<Msg, string>> {
    seq(|ms|, i requires 0 <= i < |ms| => Ok(ms[i]))
  }

  // Any list of sendable messages, concatenated, is received as exactly that list, then end of file.
  lemma {:induction false} StreamRoundTrip(ms: seq<Msg>)
    requires AllSendable(ms)
    ensures Received(StreamText(ms)) == Oks(ms)
  {
    hide LineText, Decode, CString;
    ReceivedUnfolds(StreamText(ms));
    if ms != [] {
      var rest := StreamText(ms[1..]);
      FirstLine(ms[0], rest);
      assert (LineText(ms[0]) + rest)[|LineText(ms[0])|..] == rest;
      StreamRoundTrip(ms[1..]);
      assert [Ok(ms[0])] + Oks(ms[1..]) == Oks(ms);
    }
  }

  // A session driven by messages instead of bytes.
  function ChatMessages(w: World, k: Local, c: Conn, ms: seq<Msg>): ChatResult
    requires AllSendable(ms)
    decreases |ms|
  {
    if ms == [] then ChatResult(w, k, [], Finished) else
      var o := ServeMessage(w, k, c, ms[0]);
      if o.Continues? then Prepended(LineText(o.reply), ChatMessages(o.w, o.k, c, ms[1..]))
      else Concluded(o)
  }

  // The server's whole session on the bytes of a client is the session on the client's messages.
  lemma {:induction false} ChatIsOnMessages(w: World, k: Local, c: Conn, ms: seq<Msg>)
    requires AllSendable(ms)
    ensures Chat(w, k, c, StreamText(ms)) == ChatMessages(w, k, c, ms)
    decreases |ms|
  {
    hide Decode, Handle, Catch, ServeAction, ServeLine, ServeMessage;
    if ms != [] {
      var rest := StreamText(ms[1..]);
      FirstLine(ms[0], rest);
      assert (LineText(ms[0]) + rest)[|LineText(ms[0])|..] == rest;
      var o := ServeLine(w, k, c, LineText(ms[0]));
      GoodLine(w, k, c, LineText(ms[0]), ms[0]);
      if o.Continues? {
        ChatIsOnMessages(o.w, o.k, c, ms[1..]);
      }
    }
  }
}
