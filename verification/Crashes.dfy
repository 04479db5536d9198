/** The server gets to a request it cannot answer: a run of the state machine that leads there. */
module Crashes {
  import opened Wrappers
  import opened Text
  import opened Messages
  import opened Serialization
  import opened Lines
  import opened Sessions
  import opened Tables
  import opened Protocol
  import opened Ownership
  import opened Refinement
  import opened Wellformed
  import opened LockFailures
  import H = Handlers

  lemma ReachableFurther(s: State, steps: seq<Step>)
    requires Reachable(s) && Run(s, steps)
    ensures Reachable(After(s, steps))
  {
    var before :| Run(INIT, before) && After(INIT, before) == s;
    RunAppend(INIT, before, steps);
  }

  // A new connection.
  lemma Connected(s: State, c: Conn) returns (s': State)
    requires Reachable(s) && c !in s.conns
    ensures Reachable(s') && s'.conns.Keys == s.conns.Keys + {c} && s'.conns[c].phase.Idle?
    ensures WorldOf(s') == WorldOf(s) && LocalOf(s', c) == H.Local(NEW_SESSION, {})
  {
    RunOne(s, Connect(c));
    ReachableFurther(s, [Connect(c)]);
    s' := Apply(s, Connect(c));
  }

  // A request it is served while the other connections stand still.
  lemma ServedNext(s: State, c: Conn, m: Msg) returns (s': State)
    requires Reachable(s) && c in s.conns && s.conns[c].phase.Idle?
    requires m.Valid() && 0 < |LineText(m)| <= MAX_LINE && Decode(CString(LineText(m))) == Ok(m)
    requires var served := H.ServeAction(WorldOf(s), LocalOf(s, c), c, Handle(s.conns[c].sess, m));
             served.Replied? && Encode(served.reply).Ok?
    ensures Reachable(s') && s'.conns.Keys == s.conns.Keys && s'.conns[c].phase.Idle?
    ensures var served := H.ServeAction(WorldOf(s), LocalOf(s, c), c, Handle(s.conns[c].sess, m));
            WorldOf(s') == served.w && LocalOf(s', c) == served.k
  {
    hide Run, After, WorldOf, Handle, Inv, Decode, LineText, Encode, H.ServeLine, H.ServeAction;
    ReachableInv(s);
    assert LocalOf(s, c).sess == s.conns[c].sess;
    hide LocalOf;
    LineServed(WorldOf(s), LocalOf(s, c), c, LineText(m), m);
    var steps := SoloServe(s, c, LineText(m));
    ReachableFurther(s, steps);
    s' := After(s, steps);
    SoloKeepsOthers(s, steps, c);
  }

  lemma LineServed(w: H.World, k: H.Local, c: Conn, line: string, m: Msg)
    requires Decode(CString(line)) == Ok(m) && m.Valid()
    requires var served := H.ServeAction(w, k, c, Handle(k.sess, m));
             served.Replied? && Encode(served.reply).Ok?
    ensures var served := H.ServeAction(w, k, c, Handle(k.sess, m));
            H.ServeLine(w, k, c, line) == H.Continues(served.w, served.k, served.reply)
  {
    hide Handle, Decode, H.ServeAction;
  }

  lemma {:induction false} SoloKeepsOthers(s: State, steps: seq<Step>, c: Conn)
    requires SoloRun(s, steps, c) && c in s.conns
    ensures After(s, steps).conns.Keys == s.conns.Keys
    decreases |steps|
  {
    if steps != [] {
      SoloKeepsOthers(Apply(s, steps[0]), steps[1..], c);
    }
  }

  lemma RequestLine(m: Msg)
    requires m == Msg(BEGIN, []) || (|m.args| == 1 && (m.kind.LOGIN? || m.kind.CREATE?)
                                     && IsIdentifier(m.args[0]) && |m.args[0]| <= 1000)
    ensures m.Valid() && 0 < |LineText(m)| <= MAX_LINE && Decode(CString(LineText(m))) == Ok(m)
  {
    if m.args == [] {
      assert ArgsText([]) == [];
    } else {
      OneArgText(m);
      IdentifierIsValue(m.args[0]);
    }
    EncodedLine(m);
    CStringWithoutNul(LineText(m));
    DecodeUndoesEncode(m);
  }

  // LOGIN and BEGIN open a transaction.
  lemma Opened(s: State, c: Conn) returns (s': State)
    requires Reachable(s) && c in s.conns && s.conns[c].phase.Idle? && LocalOf(s, c) == H.Local(NEW_SESSION, {})
    ensures Reachable(s') && s'.conns.Keys == s.conns.Keys && s'.conns[c].phase.Idle?
    ensures WorldOf(s') == WorldOf(s) && LocalOf(s', c) == H.Local(Session(true, true, []), {})
  {
    hide WorldOf, LineText;
    var login := Msg(LOGIN, ["u"]);
    assert IsIdentifier("u");
    RequestLine(login);
    RequestLine(Msg(BEGIN, []));
    FixedRepliesEncode();
    s' := ServedNext(s, c, login);
    s' := ServedNext(s', c, Msg(BEGIN, []));
  }

  // CREATE, and a GET of a missing key, leave a table locked.
  lemma LocksNewTable(s: State, c: Conn, name: string) returns (s': State)
    requires Reachable(s) && c in s.conns && s.conns[c].phase.Idle?
    requires LocalOf(s, c) == H.Local(Session(true, true, []), {}) && WorldOf(s) == H.World(map[], None)
    requires IsIdentifier(name) && |name| <= 1000
    ensures Reachable(s') && s'.conns.Keys == s.conns.Keys
    ensures WorldOf(s') == H.World(map[name := Locked(NewTable(name), c)], None)
  {
    hide WorldOf, LineText;
    RequestLine(Msg(CREATE, [name]));
    GetLine(name);
    FixedRepliesEncode();
    s' := ServedNext(s, c, Msg(CREATE, [name]));
    assert WorldOf(s') == H.World(map[name := NewTable(name)], None);
    s' := ServedNext(s', c, Msg(GET, [name, "k"]));
  }

  // In a reachable state a request ends the server exactly when it takes an open transaction to the
  // trylock of a table that another connection has locked and whose name has more than 984 characters.
  lemma CrashesExactly(s: State, c: Conn, line: string)
    requires Reachable(s) && c in s.conns && |line| <= MAX_LINE
    ensures var a := Dispatch(s.conns[c].sess, line);
            H.ServeLine(WorldOf(s), LocalOf(s, c), c, line).Escapes?
            <==> TryLockFails(WorldOf(s), LocalOf(s, c), a) && |a.job.name| > MAX_NAME + 1
  {
    ReachableWell(s);
    hide Reachable, Dispatch, WorldOf, GoodPhase, GoodReplies;
    assert GoodConn(s.conns[c], s.registry.Keys);
    EscapesExactly(WorldOf(s), LocalOf(s, c), c, line);
  }

  // Two connections and one table are enough: connection 1 locks a table with 985 letters to its
  // name, and the GET of connection 0 ends the server.
  lemma ServerCanCrash() returns (s: State, line: string)
    ensures Reachable(s) && 0 in s.conns && s.conns[0].phase.Idle? && |line| <= MAX_LINE
    ensures H.ServeLine(WorldOf(s), LocalOf(s, 0), 0, line).Escapes?
  {
    hide WorldOf, LocalOf, Reachable, LineText;
    var name := seq(985, _ => 'a');
    assert Reachable(INIT) && WorldOf(INIT) == H.World(map[], None) by {
      StartsEmpty();
    }
    s := Connected(INIT, 1);
    s := Opened(s, 1);
    s := LocksNewTable(s, 1, name);
    s := Connected(s, 0);
    s := Opened(s, 0);
    line := LineText(Msg(GET, [name, "k"]));
    GetCanCrash(WorldOf(s), LocalOf(s, 0), 0, name);
  }

  lemma StartsEmpty()
    ensures Reachable(INIT) && WorldOf(INIT) == H.World(map[], None)
  {
    assert Run(INIT, []) && After(INIT, []) == INIT;
  }
}
