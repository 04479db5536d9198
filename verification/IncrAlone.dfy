/** The program incr_value and the server together, with nobody else about: the key's value goes up by
    one, with -t and without. */
module IncrAlone {
  import opened Wrappers
  import opened Integers
  import opened Text
  import opened Messages
  import opened Serialization
  import opened Sessions
  import opened Tables
  import opened Handlers
  import opened Streams
  import opened IncrValue
  import R = Requests

  // Without -t the requests are those with -t, less BEGIN and COMMIT.
  lemma RequestsAreTheSame(user: string, table: string, key: string)
    ensures Requests(true, user, table, key)
         == [Msg(LOGIN, [user]), Msg(BEGIN, []), Msg(GET, [table, key]), Msg(PUSH, ["1"]), Msg(ADD, []),
             Msg(SET, [table, key]), Msg(COMMIT, []), Msg(BYE, [])]
    ensures var long := Requests(true, user, table, key);
            Requests(false, user, table, key) == long[..1] + long[2..6] + long[7..]
  {
  }

  const OK_LINE := "OK\n"

  function OkLines(n: nat): string {
    if n == 0 then [] else OK_LINE + OkLines(n - 1)
  }

  lemma OkLineText()
    ensures LineText(R.OK_MESSAGE) == OK_LINE
  {
    assert ArgsText([]) == [];
  }

  // One request answered with OK.
  lemma OneOk(w: World, k: Local, c: Conn, ms: seq<Msg>, w': World, k': Local)
    requires AllSendable(ms) && ms != [] && ServeMessage(w, k, c, ms[0]) == Continues(w', k', R.OK_MESSAGE)
    ensures ChatMessages(w, k, c, ms) == Prepended(OK_LINE, ChatMessages(w', k', c, ms[1..]))
  {
    hide ServeMessage, Sendable, LineText;
    OkLineText();
  }

  lemma MoreOks(n: nat, r: ChatResult)
    ensures Prepended(OK_LINE, Prepended(OkLines(n), r)) == Prepended(OkLines(n + 1), r)
  {
    PrependedTwice(OK_LINE, OkLines(n), r);
  }

  // The table before, and after the increment has been written.
  predicate Ready(w: World, table: string, key: string, v: string, n: int) {
    && R.HasTable(w, table) && w.tables[table].owner == None && w.tables[table].pending == map[]
    && key in w.tables[table].committed && w.tables[table].committed[key] == v
    && Stoi(v) == Number(n) && InRange(n + 1)
  }

  function Incremented(w: World, table: string, key: string, n: int): World
    requires table in w.tables
  {
    var e := w.tables[table];
    R.WithTable(w, table, TableState(e.name, e.committed[key := ToString(n + 1)], map[], None))
  }

  function Working(inTx: bool, locked: set<string>, stack: seq<string>): Local {
    Local(Session(true, inTx, stack), locked)
  }

  // PUSH 1 and ADD, on the fetched text.
  lemma AddOneServed(w: World, c: Conn, inTx: bool, locked: set<string>, v: string, n: int)
    requires Stoi(v) == Number(n) && InRange(n + 1)
    ensures ServeMessage(w, Working(inTx, locked, [v]), c, Msg(PUSH, ["1"]))
         == Continues(w, Working(inTx, locked, [v, "1"]), R.OK_MESSAGE)
    ensures ServeMessage(w, Working(inTx, locked, [v, "1"]), c, Msg(ADD, []))
         == Continues(w, Working(inTx, locked, [ToString(n + 1)]), R.OK_MESSAGE)
  {
    hide ServeMessage, Stoi, ToString;
    Increment.OneParses();
    assert IsValue("1");
    R.PushMeans(w, Working(inTx, locked, [v]), c, "1");
    assert [v] + ["1"] == [v, "1"] && [] + [v, "1"] == [v, "1"];
    R.ArithmeticMeans(w, Working(inTx, locked, [v, "1"]), c, ADD, [], v, "1", n, 1, n + 1);
    assert [] + [ToString(n + 1)] == [ToString(n + 1)];
  }

  // The four requests of the increment, outside a transaction.
  lemma BodyAlone(w: World, c: Conn, table: string, key: string, v: string, n: int, tail: seq<Msg>)
    requires R.Identifiers(table, key) && Ready(w, table, key, v, n)
    requires AllSendable(Body(table, key) + tail) && AllSendable(tail)
    ensures ChatMessages(w, Working(false, {}, []), c, Body(table, key) + tail)
         == Prepended(OkLines(4), ChatMessages(Incremented(w, table, key, n), Working(false, {}, []), c, tail))
  {
    hide ServeMessage, Stoi, ToString, Sendable;
    var k := Working(false, {}, []);
    R.GetAlone(w, k, c, table, key);
    assert [] + [v] == [v];
    AddOneServed(w, c, false, {}, v, n);
    R.SetAlone(w, Working(false, {}, [ToString(n + 1)]), c, table, key, [], ToString(n + 1));
    assert [] + [ToString(n + 1)] == [ToString(n + 1)];
    FourOks(w, c, Body(table, key) + tail, k, w, Working(false, {}, [v]), Working(false, {}, [v, "1"]),
            Working(false, {}, [ToString(n + 1)]), Incremented(w, table, key, n), k);
    assert (Body(table, key) + tail)[4..] == tail;
  }

  // Four requests answered with OK, the last of which changes the tables.
  lemma FourOks(w: World, c: Conn, ms: seq<Msg>, k: Local, w1: World, k1: Local, k2: Local, k3: Local,
                w4: World, k4: Local)
    requires |ms| >= 4 && AllSendable(ms) && AllSendable(ms[4..])
    requires ServeMessage(w, k, c, ms[0]) == Continues(w1, k1, R.OK_MESSAGE)
    requires ServeMessage(w1, k1, c, ms[1]) == Continues(w1, k2, R.OK_MESSAGE)
    requires ServeMessage(w1, k2, c, ms[2]) == Continues(w1, k3, R.OK_MESSAGE)
    requires ServeMessage(w1, k3, c, ms[3]) == Continues(w4, k4, R.OK_MESSAGE)
    ensures ChatMessages(w, k, c, ms) == Prepended(OkLines(4), ChatMessages(w4, k4, c, ms[4..]))
  {
    hide ServeMessage, Sendable, OkLines, Prepended;
    var r := ChatMessages(w4, k4, c, ms[4..]);
    assert ms[1..][1..] == ms[2..] && ms[2..][1..] == ms[3..] && ms[3..][1..] == ms[4..];
    OneOk(w1, k3, c, ms[3..], w4, k4);
    OneOk(w1, k2, c, ms[2..], w1, k3);
    OneOk(w1, k1, c, ms[1..], w1, k2);
    OneOk(w, k, c, ms, w1, k1);
    NoOks(r);
    MoreOks(0, r);
    MoreOks(1, r);
    MoreOks(2, r);
    MoreOks(3, r);
  }

  lemma NoOks(r: ChatResult)
    ensures Prepended(OkLines(0), r) == r
  {
    PrependedNothing(r);
  }

  // The table with the increment pending in c's transaction.
  function Pending(w: World, c: Conn, table: string, key: string, n: int): World
    requires table in w.tables
  {
    var e := w.tables[table];
    R.WithTable(w, table, TableState(e.name, e.committed, map[key := ToString(n + 1)], Some(c)))
  }

  // The four requests inside a transaction.
  lemma BodyInTx(w: World, c: Conn, table: string, key: string, v: string, n: int, tail: seq<Msg>)
    requires R.Identifiers(table, key) && Ready(w, table, key, v, n)
    requires AllSendable(Body(table, key) + tail) && AllSendable(tail)
    ensures ChatMessages(w, Working(true, {}, []), c, Body(table, key) + tail)
         == Prepended(OkLines(4), ChatMessages(Pending(w, c, table, key, n), Working(true, {table}, []), c, tail))
  {
    hide ServeMessage, Stoi, ToString, Sendable;
    var k, locked := Working(true, {}, []), {table};
    var w1 := R.Holding(w, k, c, table);
    assert {} + locked == locked && locked + locked == locked;
    R.GetInTx(w, k, c, table, key);
    assert [] + [v] == [v];
    AddOneServed(w1, c, true, locked, v, n);
    R.SetInTx(w1, Working(true, locked, [ToString(n + 1)]), c, table, key, [], ToString(n + 1));
    assert [] + [ToString(n + 1)] == [ToString(n + 1)];
    assert w1.tables[table := Pending(w, c, table, key, n).tables[table]] == Pending(w, c, table, key, n).tables;
    FourOks(w, c, Body(table, key) + tail, k, w1, Working(true, locked, [v]), Working(true, locked, [v, "1"]),
            Working(true, locked, [ToString(n + 1)]), Pending(w, c, table, key, n), Working(true, locked, []));
    assert (Body(table, key) + tail)[4..] == tail;
  }

  // COMMIT makes it permanent.
  lemma PendingCommits(w: World, c: Conn, table: string, key: string, v: string, n: int)
    requires Ready(w, table, key, v, n)
    ensures ServeMessage(Pending(w, c, table, key, n), Working(true, {table}, []), c, Msg(COMMIT, []))
         == Continues(Incremented(w, table, key, n), Working(false, {}, []), R.OK_MESSAGE)
  {
    hide ServeMessage, ToString, Stoi;
    var pending, done := Pending(w, c, table, key, n), Incremented(w, table, key, n);
    var text, content := ToString(n + 1), w.tables[table].committed;
    R.CommitMeans(pending, Working(true, {table}, []), c);
    var o := ServeMessage(pending, Working(true, {table}, []), c, Msg(COMMIT, []));
    assert content + map[key := text] == content[key := text];
    forall t | t in pending.tables
      ensures o.w.tables[t] == done.tables[t]
    {
    }
    assert o.w.tables == done.tables;
  }

  lemma ByeEnds(w: World, k: Local, c: Conn)
    requires AllSendable([Msg(BYE, [])])
    ensures ChatMessages(w, k, c, [Msg(BYE, [])]) == ChatResult(w, k, OK_LINE, Finished)
  {
    R.ByeMeans(w, k, c);
    OkLineText();
  }

  lemma OpenedSession(w: World, c: Conn, user: string)
    requires IsIdentifier(user)
    ensures ServeMessage(w, Local(NEW_SESSION, {}), c, Msg(LOGIN, [user]))
         == Continues(w, Working(false, {}, []), R.OK_MESSAGE)
    ensures ServeMessage(w, Working(false, {}, []), c, Msg(BEGIN, []))
         == Continues(w, Working(true, {}, []), R.OK_MESSAGE)
  {
    hide ServeMessage;
    R.LoginMeans(w, Local(NEW_SESSION, {}), c, user);
    R.BeginMeans(w, Working(false, {}, []), c);
  }

  lemma OksAdd(a: nat, b: nat)
    ensures OkLines(a) + OkLines(b) == OkLines(a + b)
  {
    if a > 0 {
      OksAdd(a - 1, b);
    }
  }

  predicate Fits(transaction: bool, user: string, table: string, key: string) {
    IsIdentifier(user) && R.Identifiers(table, key) && AllSendable(Requests(transaction, user, table, key))
  }

  // The whole session without -t...
  lemma ServedAlone(w: World, c: Conn, user: string, table: string, key: string, v: string, n: int)
    requires Fits(false, user, table, key) && Ready(w, table, key, v, n)
    ensures ChatMessages(w, Local(NEW_SESSION, {}), c, Requests(false, user, table, key))
         == ChatResult(Incremented(w, table, key, n), Working(false, {}, []), OkLines(6), Finished)
  {
    hide ServeMessage, Sendable, ToString, Stoi;
    var ms, bye := Requests(false, user, table, key), [Msg(BYE, [])];
    OpenedSession(w, c, user);
    OneOk(w, Local(NEW_SESSION, {}), c, ms, w, Working(false, {}, []));
    assert ms[1..] == Body(table, key) + bye && bye[0] == ms[5];
    BodyAlone(w, c, table, key, v, n, bye);
    ByeEnds(Incremented(w, table, key, n), Working(false, {}, []), c);
    OksAdd(1, 4);
    OksAdd(5, 1);
    assert OkLines(1) == OK_LINE;
  }

  // ... and with it.
  lemma ServedInTx(w: World, c: Conn, user: string, table: string, key: string, v: string, n: int)
    requires Fits(true, user, table, key) && Ready(w, table, key, v, n)
    ensures ChatMessages(w, Local(NEW_SESSION, {}), c, Requests(true, user, table, key))
         == ChatResult(Incremented(w, table, key, n), Working(false, {}, []), OkLines(8), Finished)
  {
    hide ServeMessage, Sendable, ToString, Stoi;
    var ms, bye := Requests(true, user, table, key), [Msg(BYE, [])];
    var tail := [Msg(COMMIT, [])] + bye;
    OpenedSession(w, c, user);
    OneOk(w, Local(NEW_SESSION, {}), c, ms, w, Working(false, {}, []));
    OneOk(w, Working(false, {}, []), c, ms[1..], w, Working(true, {}, []));
    assert ms[1..][1..] == Body(table, key) + tail && bye[0] == ms[7] && tail[0] == ms[6] && tail[1..] == bye;
    BodyInTx(w, c, table, key, v, n, tail);
    PendingCommits(w, c, table, key, v, n);
    OneOk(Pending(w, c, table, key, n), Working(true, {table}, []), c, tail, Incremented(w, table, key, n),
          Working(false, {}, []));
    ByeEnds(Incremented(w, table, key, n), Working(false, {}, []), c);
    OksAdd(1, 1);
    OksAdd(2, 4);
    OksAdd(6, 1);
    OksAdd(7, 1);
    assert OkLines(1) == OK_LINE;
  }

  // ---- the program against that server

  function OkReplies(n: nat): seq<Msg> {
    seq(n, _ => OK_REPLY)
  }

  lemma {:induction false} OkLinesAreReplies(n: nat)
    ensures AllSendable(OkReplies(n)) && StreamText(OkReplies(n)) == OkLines(n)
  {
    OkSendable();
    assert [OK_REPLY][0] == OK_REPLY;
    OkLineText();
    if n > 0 {
      OkLinesAreReplies(n - 1);
      assert OkReplies(n)[1..] == OkReplies(n - 1);
    }
  }

  lemma {:induction false} ScriptIsStream(script: seq<Msg>)
    requires AllSendable(script) && AllEncode(script)
    ensures ScriptText(script) == StreamText(script)
  {
    if script != [] {
      ScriptIsStream(script[1..]);
    }
  }

  // With an OK to each request the program sends its whole script and reports success.
  lemma TalksToTheEnd(script: seq<Msg>, buffer: string)
    requires script != [] && AllSendable(script)
    ensures Talk(script, OkLines(|script|), buffer) == Dialogue(StreamText(script), 0)
  {
    hide Talk, Sendable, Decode, LineText;
    assert AllEncode(script) by {
      SendableEncode(script);
    }
    OkLinesAreReplies(|script|);
    ExitCode(script, OkReplies(|script|), buffer);
    var n := SentInOrder(script, OkReplies(|script|), buffer);
    assert n == |script|;
    assert script[..n] == script;
    ScriptIsStream(script);
  }

  lemma SendableEncode(script: seq<Msg>)
    requires AllSendable(script)
    ensures AllEncode(script)
  {
    forall i | 0 <= i < |script|
      ensures Encode(script[i]).Ok?
    {
      assert Sendable(script[i]);
    }
  }

  // The program, with -t or without, alone with the server on a free table that holds an int at the
  // key: the server answers all its requests with OK and ends with the key's value one higher and the
  // rest as it was; and with these answers the program sends all its requests and exits with 0.
  lemma IncrementsByOne(transaction: bool, w: World, c: Conn, user: string, table: string, key: string, v: string,
                        n: int, buffer: string)
    requires Fits(transaction, user, table, key) && Ready(w, table, key, v, n)
    ensures var script := Requests(transaction, user, table, key);
            var r := Chat(w, Local(NEW_SESSION, {}), c, StreamText(script));
            && r.end.Finished? && Destroyed(r) == Incremented(w, table, key, n)
            && Talk(script, r.sent, buffer) == Dialogue(StreamText(script), 0)
  {
    hide Chat, Talk, Sendable, ToString, Stoi;
    var script := Requests(transaction, user, table, key);
    ChatIsOnMessages(w, Local(NEW_SESSION, {}), c, script);
    if transaction {
      ServedInTx(w, c, user, table, key, v, n);
    } else {
      ServedAlone(w, c, user, table, key, v, n);
    }
    TalksToTheEnd(script, buffer);
  }
}
