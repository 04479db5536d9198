/** Whole sessions: what the classes make of a byte stream is a run of the state machine. */
module Sittings {
  import opened Messages
  import opened Serialization
  import opened Rio
  import opened Lines
  import opened Tables
  import opened Protocol
  import opened Ownership
  import opened Progress
  import opened Refinement
  import H = Handlers

  // The handler a thread goes on with once the mutex it waits for is free.
  function Resumed(s: State, c: Conn): H.Served
    requires c in s.conns && (s.conns[c].phase.WantRegistry? || s.conns[c].phase.WantTable?)
    requires s.conns[c].phase.WantTable? ==>
               !s.conns[c].phase.job.CreateJob? && s.conns[c].phase.job.name in WorldOf(s).tables
  {
    var phase := s.conns[c].phase;
    if phase.WantRegistry? then H.ServeJob(WorldOf(s), LocalOf(s, c), c, phase.job)
    else H.ServeAuto(WorldOf(s), LocalOf(s, c), phase.job)
  }

  // Whatever the other threads did while c was waiting: from the state they left, c's handler goes
  // on as it would have begun there, to its reply or to the next wait.
  lemma SoloResume(s: State, c: Conn) returns (steps: seq<Step>)
    requires Inv(s) && c in s.conns && (s.conns[c].phase.WantRegistry? || s.conns[c].phase.WantTable?)
    ensures SoloRun(s, steps, c)
    ensures s.conns[c].phase.WantTable? ==>
              !s.conns[c].phase.job.CreateJob? && s.conns[c].phase.job.name in WorldOf(s).tables
    ensures ShowsOutcome(After(s, steps), c, s.conns[c].replies, H.Catch(Resumed(s, c)))
  {
    hide Run, After, Inv;
    if s.conns[c].phase.WantRegistry? {
      steps := SoloRest(s, c);
    } else {
      steps := SoloAuto(s, c);
      var served := Resumed(s, c);
      if served.Replied? && Encode(served.reply).Err? {
        Escaped(After(s, steps), c, s.conns[c].replies, H.Catch(served), served.reply);
      }
    }
  }

  // The bytes of a connection's replies.
  function SentText(replies: seq<Msg>): seq<char> {
    if replies == [] then [] else
      var reply := replies[0];
      (if reply.kind.NONE? then [] else LineText(reply)) + SentText(replies[1..])
  }

  // How the end of a session, destructor included, shows in the machine: said is what was replied.
  ghost predicate ShowsChat(s: State, c: Conn, said: seq<Msg>, r: H.ChatResult) {
    c in s.conns
    && match r.end
       case Finished => WorldOf(s) == H.Destroyed(r) && s.conns[c].phase.Closed? && SentText(said) == r.sent
       case WaitsForLock =>
         WorldOf(s) == r.w && LocalOf(s, c) == r.k && Blocked(s, c) && SentText(said) == r.sent
       case Crashed =>
         && WorldOf(s) == r.w && LocalOf(s, c) == r.k
         && said != [] && SentText(said[..|said| - 1]) == r.sent && Encode(said[|said| - 1]).Err?
  }

  // A session whose last pass had the outcome o.
  lemma Concludes(s: State, c: Conn, replies: seq<Msg>, o: H.PassOutcome) returns (said: seq<Msg>)
    requires !o.Continues? && (o.Ends? ==> !o.reply.kind.NONE?) && ShowsOutcome(s, c, replies, o)
    ensures s.conns[c].replies == replies + said && ShowsChat(s, c, said, H.Concluded(o))
  {
    match o
    case Ends(_, _, reply) =>
      said := [reply];
      assert SentText(said[1..]) == [];
    case Stuck(_, _) => said := [];
    case Escapes(_, _) =>
      var reply :| s.conns[c].replies == replies + [reply] && Encode(reply).Err?;
      said := [reply];
      assert said[..0] == [];
  }

  // One pass before a session.
  lemma SaidFirst(s: State, c: Conn, reply: Msg, said: seq<Msg>, r: H.ChatResult)
    requires ShowsChat(s, c, said, r) && !reply.kind.NONE?
    ensures ShowsChat(s, c, [reply] + said, H.Prepended(LineText(reply), r))
  {
    hide LineText, WorldOf, LocalOf, Blocked;
    var all := [reply] + said;
    assert all[1..] == said;
    if r.end.Crashed? {
      assert all[..|all| - 1][1..] == said[..|said| - 1];
      assert SentText(all[..|all| - 1]) == LineText(reply) + SentText(said[..|said| - 1]);
    }
  }

  // A whole session on a byte stream, destructor included, with the other threads standing still,
  // is a run of the machine by that connection alone: same tables, and the replies are the bytes sent.
  lemma {:induction false} SoloChat(s: State, c: Conn, stream: seq<char>) returns (steps: seq<Step>, said: seq<Msg>)
    requires Inv(s) && c in s.conns && s.conns[c].phase.Idle?
    ensures SoloRun(s, steps, c) && c in After(s, steps).conns
    ensures After(s, steps).conns[c].replies == s.conns[c].replies + said
    ensures ShowsChat(After(s, steps), c, said, H.Chat(WorldOf(s), LocalOf(s, c), c, stream))
    decreases |stream|
  {
    hide Run, After, Inv, WorldOf, LocalOf, LineOf, H.ServeLine, H.Chat, H.Prepended, ShowsChat;
    var w, k, replies := WorldOf(s), LocalOf(s, c), s.conns[c].replies;
    var line := LineOf(stream, MAX_LINE);
    LineOfIsShortest(stream, MAX_LINE);
    H.ChatUnfolds(w, k, c, stream);
    if line == [] {
      steps := SoloHangUp(s, c);
      said := [];
      NothingSaid(After(s, steps), c, w, k);
    } else {
      steps := SoloServe(s, c, line);
      var s1, o := After(s, steps), H.ServeLine(w, k, c, line);
      if o.Continues? {
        RunKeepsInv(s, steps);
        var rest, more := SoloChat(s1, c, stream[|line|..]);
        RunAppend(s, steps, rest);
        SaidFirst(After(s1, rest), c, o.reply, more, H.Chat(o.w, o.k, c, stream[|line|..]));
        said := [o.reply] + more;
        assert (replies + [o.reply]) + more == replies + said;
        steps := steps + rest;
      } else {
        said := Concludes(s1, c, replies, o);
      }
    }
  }

  lemma NothingSaid(s: State, c: Conn, w: H.World, k: H.Local)
    requires c in s.conns && s.conns[c].phase.Closed?
    requires WorldOf(s) == H.Destroyed(H.ChatResult(w, k, [], H.Finished))
    ensures ShowsChat(s, c, [], H.ChatResult(w, k, [], H.Finished))
  {
  }
}
