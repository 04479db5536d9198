/** When the server cannot report that a transaction has failed: an exception inside a catch clause,
    which ends the whole process. */
module LockFailures {
  import opened Text
  import opened Messages
  import opened Serialization
  import opened Lines
  import opened Sessions
  import opened Tables
  import opened Handlers
  import opened Wellformed

  // The request takes an open transaction to the trylock of a table that somebody else has locked.
  predicate TryLockFails(w: World, k: Local, a: Action) {
    && a.Start? && !a.job.CreateJob? && k.sess.inTx && w.registryOwner.None?
    && a.job.name in w.tables && a.job.name !in k.locked && w.tables[a.job.name].owner.Some?
  }

  // A reply to a job, or the text of its failure, can be encoded unless it names a table with more
  // than 984 characters.
  lemma JobEscapes(w: World, k: Local, c: Conn, job: Job)
    requires IsIdentifier(job.name)
    ensures Catch(ServeJob(w, k, c, job)).Escapes?
            <==> TryLockFails(w, k, Start(k.sess, job)) && |job.name| > MAX_NAME + 1
  {
    hide GoodReply, LineText;
    FixedRepliesEncode();
    LockFailureFits(job.name);
  }

  lemma FixedRepliesEncode()
    ensures Encode(OK_REPLY).Ok? && Encode(FailedReply(DUPLICATE_TABLE)).Ok? && Encode(FailedReply(NO_SUCH_TABLE)).Ok?
    ensures Encode(FailedReply(NO_SUCH_KEY)).Ok? && Encode(FailedReply(NESTED_TRANSACTION)).Ok?
  {
    FixedRepliesAreGood();
  }

  // Serving a line ends in an exception that nobody catches exactly when the trylock of a table
  // fails whose name has more than 984 characters.
  lemma EscapesExactly(w: World, k: Local, c: Conn, line: string)
    requires GoodStack(k.sess.stack) && |line| <= MAX_LINE
    ensures var a := Dispatch(k.sess, line);
            ServeLine(w, k, c, line).Escapes? <==> TryLockFails(w, k, a) && |a.job.name| > MAX_NAME + 1
  {
    var a := Dispatch(k.sess, line);
    DispatchKeepsGood(k.sess, line);
    DispatchShape(k.sess, line);
    AbortTextIsNested(k.sess, line);
    hide Dispatch, Handle, ServeJob;
    FixedRepliesEncode();
    if a.Start? {
      JobEscapes(w, k.(sess := a.sess), c, a.job);
    }
  }

  // A GET of any name from 985 to 1016 characters fits in a request line, and ends the server when
  // another connection has the table locked.
  lemma GetCanCrash(w: World, k: Local, c: Conn, name: string)
    requires IsIdentifier(name) && 985 <= |name| <= 1016
    requires k.sess.loggedIn && k.sess.inTx && w.registryOwner.None?
    requires name in w.tables && name !in k.locked && w.tables[name].owner.Some?
    ensures var line := LineText(Msg(GET, [name, "k"]));
            |line| <= MAX_LINE && ServeLine(w, k, c, line) == Escapes(RollbackAll(w, k.locked), AfterTx(k))
  {
    var m := Msg(GET, [name, "k"]);
    GetLine(name);
    assert Dispatch(k.sess, LineText(m)) == Start(k.sess, GetJob(name, "k"));
    hide Dispatch, LineText;
    JobEscapes(w, k, c, GetJob(name, "k"));
  }
}
