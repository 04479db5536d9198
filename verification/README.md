# A key/value server with transactions: model and proofs

The server keeps named tables of key/value pairs. Each connection is a thread that reads one-line
requests, computes on an operand stack of strings, and reads and writes tables, either one request
at a time (autocommit) or in a transaction that locks tables with `trylock` and holds them until
COMMIT. COMMIT is a loop: it commits and unlocks table by table while other threads run.

The project has two layers and a proof that they agree.

- **The program.** Classes with the fields of the C++ classes and methods with its branches and
  loops: `Messages`, `Serialization`, `Rio`, `Lines`, `ValueStacks`, `Tables`, `Servers`,
  `Connections`, `IncrValue`. A class method runs while the other threads stand still; a wait for a
  mutex that somebody holds is a result of the call (`Waiting`). `Handlers` and `Sessions` are the
  functions the methods are proved against.
  `Requests` and `Grammar` say what those functions mean to a client, request by request and character
  by character, without naming them.
- **The protocol.** `Protocol` is the server as a state machine: any number of connections, and every
  lock, unlock, lookup, access and per-table commit or rollback is a step of its own, in any order the
  mutexes allow. `Ownership`, `Serializability`, `Progress`, `Locks`, `Outcomes`, `Wellformed`,
  `LockFailures`, `Crashes` and `Increment` prove properties of every state of every run.
- **The link.** `Refinement` and `Sittings` prove that each request, and each whole session, as the
  classes serve it, is a run of the machine by one connection: same tables, same session, same locks,
  same replies. A handler that had to wait goes on, when the mutex is free, from whatever state the
  other threads have left.

Main results:

1. A commit that is not one step looks atomic, and every run is serial (`CommitLooksAtomic`,
   `EveryRunIsSerial`). The database a client can observe is each table's committed map, overlaid with
   its pending map once the owner is in its commit loop.
2. No increment of concurrent `incr_value -t` clients is lost (`NoLostUpdate`, `IncrementsAddUp`); alone
   with the server the program adds one, with -t and without (`IncrementsByOne`).
3. No deadlock, and every request ends (`NoDeadlock`, `SomebodyMoves`, `StepsDecreaseWork`).
4. One owner per lock, one release per acquisition, no data race, no trace of an aborted transaction.
5. A byte stream of encoded messages, cut into reads in any way, comes back as the same messages
   (`RioBuffer.ReadLine`, `ReceiveAll`, `StreamRoundTrip`), decode and encode undo each other, and a
   line decodes exactly when it has the shape of a request (`CarriedIsDecoded`, `DecodedIsCarried`).
6. One reply per request, in order; every stored value can be sent back (`ReachableWell`).
7. The operand stack evaluates compiled integer expressions (`CompiledCorrectly`).
8. Every request has the reply and the effect its text asks for, refusals included (`Requests`).

Two promises do not hold, and the exact conditions are proved.

- A failed `trylock` on a table whose name has more than 983 characters has no reply that fits in one
  line; with more than 984 the encoder throws inside a catch clause and the process ends. A request
  ends the server exactly when it takes an open transaction to the `trylock` of such a table, held by
  somebody else (`EscapesExactly`, `CrashesExactly`), the server does get there (`ServerCanCrash`),
  and while no name is longer than 983 characters every reply fits (`ShortNamesFit`).
- `incr_value` does not look at the count its line reader returns, so it can exit with 0 although
  nothing was committed (`ExitCode`, `SuccessWithoutCommit`).

## Model

| member | source | states |
|---|---|---|
| Serializability.CommitLooksAtomic | client_connection.cpp:444-456 | In every interleaving the observable database changes in three ways only: a COMMIT begins, with its whole write set at once; an autocommit SET commits; a table is created. No step inside a commit or rollback loop, no unlock and no access changes it |
| Serializability.CommitBegins | client_connection.cpp:444-451 | The moment a COMMIT is accepted, the database is overlaid with the last value the transaction wrote to each key of each table |
| Serializability.LoopEffect | client_connection.cpp:451-454 | Committing, dropping or unlocking one table in a release loop leaves the observable database as it is, although the committed map may change |
| Serializability.EveryRunIsSerial | client_connection.cpp:177-231 | In every reachable state, running the committed transactions one at a time in the order their COMMITs began, autocommit requests being transactions of their own, succeeds, gives every GET the result it had, missing keys included, and ends in the current database |
| Serializability.StepKeepsSerial | client_connection.cpp:177-231 | Every step keeps this: the history replays to the database, and every open transaction could run now, alone, and see what it saw |
| Serializability.ReachableSerial | client_connection.cpp:177-231 | Both halves of that invariant hold in every reachable state |
| Serializability.RunKeepsSerial | client_connection.cpp:444-456 | They hold after every run from a state in which they hold |
| Serializability.RecordsAreFaithful | client_connection.cpp:190-197 | What a transaction has on record of an access is what its client asked for, table, key and value, and what its client got: the value on its stack, the missing-key reply, or the written value |
| Serializability.AutoRecordIsFaithful | client_connection.cpp:195-198 | The same for an autocommit GET or SET, which is on record exactly once, as a transaction of one access to the table and key of the request |
| Serializability.VisibleInTx | client_connection.cpp:183-192 | A transaction sees in a locked table what running its own accesses on the current database would give |
| Serializability.ExecIsOverlay | client_connection.cpp:451-454 | Performing a transaction's accesses one after the other is the same as writing its last values at once |
| Serializability.ExecFrame | client_connection.cpp:183-192 | Only the tables a transaction touched can decide whether it sees the same results again |
| Serializability.OwnedTableKept | client_connection.cpp:183-189 | No step of another connection changes the database at a table a connection has locked |
| Serializability.OthersRepeatable | client_connection.cpp:183-189 | No step of another connection changes what an open transaction has seen |
| Ownership.StepKeepsInv | client_connection.cpp:183-231 | Every step of every connection keeps the ownership invariant: a held table is marked as held by that connection and no other, a free table has nothing pending, a held one has pending exactly its owner's last writes since BEGIN, and the locked set is empty outside a transaction |
| Ownership.RunKeepsInv | client_connection.cpp:183-231 | The ownership invariant holds after every run from a state in which it holds |
| Ownership.ReachableInv | client_connection.cpp:183-231 | The ownership invariant holds in every reachable state |
| Ownership.HoldersAreExclusive | client_connection.cpp:183-189 | In every reachable state two connections hold no table in common, and a connection holds exactly the tables whose mutex it owns |
| Ownership.PendingIsTheOwnersWrites | table.cpp:47-51 | In every reachable state a free table has nothing pending, a table held in an open transaction has pending exactly the last values that transaction SET, and an autocommit request holds one table and no more |
| Ownership.NothingWritten | client_connection.cpp:219-226 | A transaction has written nothing to a table it has not locked |
| Progress.NoDeadlock | guard.h:15-24 | A chain of threads each blocked on a mutex the next one holds has at most two waits and never returns to a thread it left |
| Progress.WaitFacts | server.cpp:90-109 | A thread blocked on a table's Guard holds nothing and nobody waits for it; whoever holds the registry is not blocked |
| Progress.WaitsEnd | client_connection.cpp:182-198 | Every wait leads, over at most two links, to a thread that waits for no mutex |
| Progress.BusyCanStep | client_connection.cpp:164-238 | A thread that serves a request and is not blocked can take a step without hearing from its client |
| Progress.SomebodyMoves | client_connection.cpp:182-198 | While a request is being served, some unblocked connection can step, or an open transaction that waits for its client's next request holds the others up |
| Progress.StepsDecreaseWork | client_connection.cpp:451-456 | Every step a connection takes brings it nearer to the end of its request: handlers and release loops terminate, however the threads interleave |
| Locks.OnlyOwnersUnlock | table.cpp:23-44 | No thread unlocks a mutex it does not own or acquires one that is taken |
| Locks.OnlyOwnersWrite | table.cpp:47-95 | A table's committed and pending maps change only under the hands of the thread that owns its mutex |
| Locks.AccessesAreLocked | client_connection.cpp:183-231 | Every read or write of a table's maps, and every use of the registry, happens with the mutex in hand |
| Locks.EachLockReleasedOnce | client_connection.cpp:20-31 | Over any run, unlocks of a table's mutex equal its acquisitions, but for one still held: each acquisition is released exactly once |
| Locks.EachRegistryLockReleasedOnce | server.cpp:90-109 | The same balance for the mutex of the registry, over any run |
| Outcomes.AbortLeavesNoTrace | client_connection.cpp:112-128 | A transaction that ends without COMMIT, whatever ended it and however the threads interleave, has put nothing into the serial history that makes up the database, owns no table, and leaves no pending write |
| Outcomes.EveryExitRollsBack | client_connection.cpp:44-128 | In a transaction, end of input, an undecodable line, a response sent as a request, BYE and a nested BEGIN enter the rollback loop over every locked table; every other request, refused or not, keeps locks and writes; only COMMIT enters the commit loop |
| Outcomes.LockFailureRollsBack | client_connection.cpp:184-189 | A table somebody else holds sends the transaction into the rollback loop over every table it has locked, with the failure text naming the table; any other table ends up in its locked set |
| Outcomes.EndOfRollback | client_connection.cpp:112-118 | When a transaction closes without committing, its locked set is empty |
| Outcomes.RegistryGrows | server.cpp:90-98 | Over any run a registered name keeps its table, rollbacks included |
| Outcomes.NamesDoNotShare | server.cpp:92-97 | Two names never share a table |
| Outcomes.LookupsAgree | server.cpp:99-108 | Once a lookup of a name has found a table, every later lookup by anybody finds the same one |
| Outcomes.OneCreateSucceeds | server.cpp:90-98 | Of all the CREATEs of one name during a run exactly one succeeds if the name comes to exist, and none otherwise |
| Increment.NoLostUpdate | incr_value.cpp:57-137 | Any number of `incr_value -t` clients on one key, any of them failing, hanging up or cut short anywhere, other connections doing anything but SET the key: in every interleaving the key's value is its initial value plus the number of runs whose COMMIT has begun |
| Increment.IncrementsAddUp | incr_value.cpp:57-137 | The same from any reachable state in which the key holds an int: the key's text is the decimal text of the sum, as long as the sum fits in 32 bits |
| Increment.StepKeepsInc | incr_value.cpp:57-137 | No single step of any connection breaks that count |
| Increment.CommitAddsOne | client_connection.cpp:280-308 | What a client's transaction writes is one more than what the database holds when its COMMIT begins, not merely what it once read |
| Increment.ClientReceives | incr_value.cpp:43-143 | Whatever prefix of its next request a client delivers, its connection stays where the script says; only a whole script up to SET can reach COMMIT |
| Increment.CutLineFails | message_serialization.cpp:52-54 | A request cut short is never taken for a request |
| Increment.AddOne | client_connection.cpp:280-308 | ADD of "1" to a fetched text leaves the text of its successor, or fails when the text is no int |
| IncrValue.Client.IncrementKey | incr_value.cpp:38-152 | For every response stream and every schedule of reads and writes, the program sends the requests in order, each after an OK to the one before, and exits with 0 or 1, exactly as the dialogue function says |
| IncrValue.NextLineSent | incr_value.cpp:43-143 | The line the server reads after n requests, however the client's bytes are cut off, is empty or the beginning of the next request, and then every response so far was OK |
| IncrValue.ProgramIsClient | incr_value.cpp:43-143 | What the program sends against the server's replies, cut at any point, is what NoLostUpdate assumes of a client |
| IncrValue.SentInOrder | incr_value.cpp:43-143 | What is sent is the encoding of the first requests of the script; all but the last of them were answered with OK, and a request after which the program stops was not |
| IncrValue.ExitCode | incr_value.cpp:139-152 | The exit code is 0 exactly when each response that came, up to the last one awaited, was OK; a missing response counts as a repetition of the one before it |
| IncrValue.SuccessWithoutCommit | incr_value.cpp:49-55 | A server that answers LOGIN with OK and then sends no more makes the program report success, as long as its own writes go through |
| IncrValue.SuccessWithCommit | incr_value.cpp:124-152 | With a response to each of the seven requests up to COMMIT, the program reports success exactly when all seven are OK |
| IncrAlone.IncrementsByOne | incr_value.cpp:43-152 | With -t and without, alone with the server on a free table that holds an int at the key: the server answers every request with OK and ends with the text of the successor at the key and the rest as it was; with these answers the program sends all its requests and exits with 0 |
| IncrAlone.RequestsAreTheSame | incr_value.cpp:43-143 | The eight requests with -t, spelled out; without -t they are those less BEGIN and COMMIT |
| IncrAlone.TalksToTheEnd | incr_value.cpp:43-152 | Answered with OK all the way, the program sends its whole script and exits with 0 |
| Requests.LineMeans | client_connection.cpp:43-57 | A line that carries a request, white space included, is served as that request |
| Requests.UndecodableEnds | client_connection.cpp:123-128 | Any other line is answered with ERROR, in any state, and ends the session |
| Requests.RefusedBeforeLogin | client_connection.cpp:51-54 | Before LOGIN every request but LOGIN and BYE fails and changes nothing |
| Requests.LoginMeans | client_connection.cpp:142-154 | LOGIN logs in; a second one fails and changes nothing |
| Requests.ByeMeans | client_connection.cpp:156-162 | BYE is answered with OK, logged in or not, and ends the session |
| Requests.ResponseIsNoRequest | client_connection.cpp:103-106 | A response type sent as a request ends the session with ERROR |
| Requests.PushMeans | client_connection.cpp:240-253 | PUSH v leaves the stack with v on top |
| Requests.PopMeans | client_connection.cpp:255-267 | POP on a stack with v on top leaves what is below |
| Requests.PushThenPop | client_connection.cpp:240-267 | PUSH then POP gives two OKs and the connection as before |
| Requests.TopMeans | client_connection.cpp:270-278 | TOP replies with the top and leaves the stack |
| Requests.EmptyStackFails | client_connection.cpp:209-213 | POP, TOP and SET on an empty stack fail and change nothing |
| Requests.ArithmeticMeans | client_connection.cpp:280-425 | ADD, SUB, MUL and DIV replace two operand texts that parse by the text of l + r, l - r, l * r or the quotient described by its remainder, l being the earlier one |
| Requests.ArithmeticFails | client_connection.cpp:287-300 | When an operand does not parse or the divisor is zero the request fails, the left operand being looked at first, and both operands are gone |
| Requests.TooFewOperands | client_connection.cpp:282-284 | With fewer than two operands it fails, and the stack stays |
| Requests.CreateMeans | client_connection.cpp:164-175 | CREATE adds an empty free table under the name, in a transaction or not, or fails when the name is taken and changes nothing |
| Requests.UnknownTableFails | server.cpp:99-108 | GET and SET of an unknown table fail; the SET has lost its value |
| Requests.GetAlone | client_connection.cpp:193-197 | A GET outside a transaction pushes the committed value of the key it names, or fails and changes nothing |
| Requests.SetAlone | client_connection.cpp:227-231 | A SET outside a transaction moves the top of the stack, not any other value, to the committed map at the key it names and leaves the rest of table and stack |
| Requests.AloneWaits | guard.h:15-19 | Outside a transaction both wait for a table that somebody holds; the SET has its value off the stack by then |
| Requests.GetInTx | client_connection.cpp:183-192 | A GET in a transaction pushes the pending value of the key, else the committed one, else fails; the table is locked afterwards in each case |
| Requests.SetInTx | client_connection.cpp:215-226 | A SET in a transaction moves the top of the stack to the pending map and leaves the committed one |
| Requests.LockFailureMeans | client_connection.cpp:184-188 | On a table somebody else holds, a transaction fails by name: every table it has locked is free with nothing pending and its committed map as it was, the others are untouched |
| Requests.BeginMeans | client_connection.cpp:427-442 | BEGIN opens a transaction; inside one it fails and rolls back every locked table |
| Requests.CommitMeans | client_connection.cpp:444-463 | COMMIT makes every pending value of every locked table permanent, frees them and closes the transaction; outside one it fails and changes nothing |
| Wellformed.ReachableWell | client_connection.cpp:35-139 | In every reachable state each value on a stack, pending or committed is a legal value of at most 1017 characters without NUL; each connection has exactly one reply per finished request, in order, an ERROR only as the last; and each reply can be read back in one line, except the failure to lock a registered table whose name has more than 983 characters |
| Wellformed.StepKeepsWell | client_connection.cpp:35-139 | Every step of every connection keeps that |
| Wellformed.TopIsAnswered | client_connection.cpp:270-278 | TOP on a non-empty stack of a logged-in connection is always answered with a DATA line of at most 1023 bytes that decodes to the top of the stack |
| Wellformed.LockFailureFits | client_connection.cpp:184-187 | The reply to a failed trylock can be read in one line exactly when the table name has at most 983 characters, and can be encoded exactly when it has at most 984 |
| Wellformed.LockFailureCanOverflow | client_connection.cpp:112-122 | The text of the lock failure on a name of 985 letters cannot be encoded, although a request with that name fits in a line |
| Wellformed.ShortNamesFit | client_connection.cpp:35-139 | In every reachable state: while no registered name is longer than 983 characters, every reply ever given is valid and fits in one line of at most 1023 bytes without NUL; while none is longer than 984, every reply can be encoded |
| LockFailures.EscapesExactly | client_connection.cpp:112-122 | Serving a line ends in an exception nobody catches exactly when it takes an open transaction to the trylock of a registered table it has not locked, which another connection holds and whose name has more than 984 characters |
| LockFailures.GetCanCrash | client_connection.cpp:177-188 | A GET of any such name of 985 to 1016 characters fits in a request line and ends the server after the rollback |
| Crashes.CrashesExactly | client_connection.cpp:112-122 | The condition of EscapesExactly, in every reachable state of the server |
| Crashes.ServerCanCrash | client_connection.cpp:112-122 | A reachable state with an idle connection, and a request of that connection within the line limit, that ends the server there |
| Sessions.DispatchKeepsGood | client_connection.cpp:41-128 | Whatever line arrives, a connection with legal values on its stack gives a reply that fits in one line, and passes only legal values on to the stack or to a table |
| Sessions.PushedValueIsGood | client_connection.cpp:240-245 | A value that arrives in a request line has at most 1017 characters and no NUL |
| Sessions.DataReply | client_connection.cpp:270-278 | A DATA reply with such a value encodes, fits, and decodes to the value |
| Sessions.LastReplyIsGood | client_connection.cpp:123-128 | The reply that ends a session always fits in one line, whatever the connection holds |
| Sessions.DispatchShape | client_connection.cpp:57-128 | No request closes a transaction by itself, and only an open transaction commits or aborts |
| Compiler.CompiledCorrectly | client_connection.cpp:280-425 | For every integer expression whose leaves and intermediate results fit in 32 bits and whose divisors are not zero, the postorder PUSH/ADD/SUB/MUL/DIV requests sent to a logged-in session are all answered with OK and leave the old stack with the decimal text of the value under truncating division on top, and nothing else changed |
| Compiler.OperatorServed | client_connection.cpp:280-425 | One operator request replaces the texts of two ints on top by the text of their sum, difference, product or quotient, the later operand being the subtrahend and the divisor |
| Compiler.LitServed | client_connection.cpp:240-253 | A PUSH of any 32-bit int, as text, reaches the stack |
| ValueStacks.ArithmeticOnInts | client_connection.cpp:280-425 | With two ints on top, the sum, the difference of the earlier and the later, the product, or the quotient of the earlier by the later, described by its remainder, replaces them as text when it fits |
| ValueStacks.ComputesOne | client_connection.cpp:280-425 | The description of each operation leaves one result only |
| Integers.StoiUndoesToString | client_connection.cpp:290-308 | Printing and parsing back is the identity on every 32-bit int |
| Integers.TruncDivMeaning | client_connection.cpp:408-414 | The quotient leaves a remainder smaller than the divisor that carries the dividend's sign |
| Integers.ToStringIsValue | client_connection.cpp:301-308 | The text of an int is a legal value of at most 11 characters |
| Integers.WrapSuccessor | client_connection.cpp:301-303 | Adding one to a wrapped int is wrapping the successor |
| Grammar.CarriedIsDecoded | message_serialization.cpp:48-122 | A line of at most 1024 characters made of white space, the word of a valid message and its arguments with white space of any kind around them, a newline at the end, decodes to that message; FAILED and ERROR take the rest of the line verbatim |
| Grammar.DecodedIsCarried | message_serialization.cpp:48-122 | Every line that decodes is one of these |
| Grammar.WordsAlone | message_serialization.cpp:12-36 | The ten lines without arguments, spelled out |
| Grammar.WordsWithArguments | message_serialization.cpp:12-36 | The eight kinds of line with arguments, spelled out |
| Grammar.TokensOfLaid | message_serialization.cpp:80-84 | Arguments are read back whatever white space is before, between and after them |
| Grammar.TokensAreLaid | message_serialization.cpp:80-84 | Every text is its tokens with white space around them, and nothing is lost |
| Grammar.ValidBySignature | message.cpp:91-151 | A message is valid exactly when its arguments are, in number and by character codes, those of its type |
| Grammar.StoiReads | client_connection.cpp:290-295 | White space, an optional sign and digits are read as the number, whatever non-digit text follows; out of 32 bits it is out of range |
| Grammar.StoiRefuses | client_connection.cpp:290-297 | Without a digit after the sign it is no number |
| Grammar.OneDigit | client_connection.cpp:301-303 | The ten digits, as characters and as values |
| Grammar.DigitsByPlace | client_connection.cpp:290-295 | Digits count by their place, leading zeros included |
| Grammar.PrintedNumber | client_connection.cpp:301-303 | A number is printed in decimal without leading zeros, with a minus sign when negative |
| Serialization.DecodeUndoesEncode | message_serialization.cpp:8-122 | For every valid message of every type that can be encoded, free text with spaces, quotes or nothing included, decoding the encoding gives the message |
| Serialization.EncodeInjective | message_serialization.cpp:8-46 | Two valid messages with the same encoding are the same |
| Serialization.NormalForm | message_serialization.cpp:48-122 | A decoded line re-encodes to a text that is no longer, decodes to the same message, and re-encodes to itself |
| Serialization.EncodeMessage | message_serialization.cpp:8-46 | The loop produces the command, each argument after one blank, and a newline; it fails exactly on the missing type and on more than 1024 characters |
| Serialization.DecodeMessage | message_serialization.cpp:48-122 | The loops compute decode; a failure before the command is known leaves the message object alone, an invalid message has already overwritten it |
| Serialization.SkipLeading | message_serialization.cpp:58-62 | The loop drops exactly the leading white space |
| Serialization.SplitLine | message_serialization.cpp:68-111 | The command and the arguments of a line; only FAILED and ERROR keep their text whole |
| Serialization.Overwrite | message_serialization.cpp:113-116 | The loop leaves the message object with exactly the type and the arguments |
| Serialization.SplitTokens | message_serialization.cpp:80-84 | The loop collects the maximal runs of non-blank characters |
| Serialization.FindBlank | message_serialization.cpp:71-75 | The command ends at the first space, not at other white space |
| Serialization.TokensOfArgsText | message_serialization.cpp:80-84 | Printed arguments are split into themselves |
| Serialization.ReprintFits | message_serialization.cpp:34-45 | Printing a parsed line never lengthens it |
| Serialization.EncodedLine | message_serialization.cpp:40 | An encoded message whose arguments have no newline or NUL has one newline, at its end, and no NUL |
| Serialization.DecodedArgsFrom | message_serialization.cpp:68-86 | Decoding invents no characters |
| Rio.RioBuffer.ReadLine | csapp.c:877-899 | For every schedule of chunk sizes and interrupted reads: the line is the shortest of through the first newline, maxlen-1 bytes and all bytes to end of file; the count is its length; delivered, buffered and unread bytes together are the original stream; a NUL ends it; at end of file the buffer is untouched |
| Rio.RioBuffer.Read | csapp.c:811-836 | Delivers a prefix of the remaining stream, empty only at its end, and leaves the rest |
| Rio.RioBuffer.Refill | csapp.c:815-826 | Refilling changes no byte of the stream and comes back empty only at its end |
| Rio.RioBuffer.Deliver | csapp.c:828-835 | The copy moves the first bytes of the stream to the user's buffer and touches nothing else |
| Rio.RioBuffer.constructor | csapp.c:843-848 | A new reader has everything still to deliver |
| Rio.LineOfIsShortest | csapp.c:882-896 | A line is a prefix of the stream that stops at the earliest of the first newline, the limit and the end |
| Rio.LineOfTerminated | csapp.c:885-888 | A text with its only newline at the end is exactly the next line of any stream that starts with it |
| Rio.Descriptor.WriteN | csapp.c:781-798 | Every byte is sent once and in order, whatever part each write takes and however often it is interrupted |
| Lines.NextLine | client_connection.cpp:43-49 | Reading into the request buffer and handing it over as a C string gives decode the line up to its first NUL |
| Streams.ReceiveAll | client_connection.cpp:38-49 | Repeated line reading and decoding returns what the byte stream alone determines, whatever the schedule of the reads, and ends at end of file |
| Streams.StreamRoundTrip | message_serialization.cpp:8-122 | Any list of valid messages without newline or NUL in their arguments and with encodings of at most 1023 bytes, concatenated, is received as exactly that list and then end of file |
| Streams.ChatIsOnMessages | client_connection.cpp:35-139 | A whole session on the bytes of a client is the session on the client's messages |
| Connections.ClientConnection.ChatWithClient | client_connection.cpp:35-139 | Whatever the chunks in which bytes arrive and leave, the session's replies, its effect on the tables, its stack and locks and the way it ends are those the byte stream determines |
| Connections.ClientConnection.ServeRequest | client_connection.cpp:41-128 | One pass: decoded, handled, and every exception turned into the reply, the rollback or the end of the session that its kind demands |
| Connections.ClientConnection.HandleRequest | client_connection.cpp:51-106 | Each request type goes to its handler; before LOGIN everything but LOGIN and BYE is refused; a response type is invalid |
| Connections.ClientConnection.CatchOperation | client_connection.cpp:107-111 | FAILED is sent and nothing is rolled back |
| Connections.ClientConnection.CatchFailedTransaction | client_connection.cpp:112-122 | Every locked table is rolled back and unlocked, the transaction is closed, and FAILED is sent afterwards |
| Connections.ClientConnection.CatchInvalidMessage | client_connection.cpp:123-128 | ERROR is sent and the session ends |
| Connections.ClientConnection.Destroy | client_connection.cpp:20-31 | An open transaction's tables are rolled back and unlocked, and no other table changes |
| Connections.ClientConnection.HandleLogin | client_connection.cpp:142-154 | Logs in once; a second LOGIN fails |
| Connections.ClientConnection.HandleBye | client_connection.cpp:156-162 | Replies OK and changes nothing |
| Connections.ClientConnection.HandleCreate | client_connection.cpp:164-175 | Registers an empty table or fails, and replies accordingly; no other table changes |
| Connections.ClientConnection.HandleGet | client_connection.cpp:177-204 | The visible value is pushed; in a transaction the table is locked first, and a missing key leaves it locked |
| Connections.ClientConnection.HandleSet | client_connection.cpp:207-238 | The value is popped before the table is looked up or locked, and is gone when that fails |
| Connections.ClientConnection.LockInTx | client_connection.cpp:183-190 | A table in the locked set is not locked again; otherwise trylock decides, and only success adds the table |
| Connections.ClientConnection.HandlePush | client_connection.cpp:240-253 | Pushes and replies OK |
| Connections.ClientConnection.HandlePop | client_connection.cpp:255-267 | Pops, or fails on an empty stack and leaves it |
| Connections.ClientConnection.HandleTop | client_connection.cpp:270-278 | Replies with the top and leaves the stack |
| Connections.ClientConnection.HandleArithmetic | client_connection.cpp:280-425 | Both operands are popped before they are parsed, the later one is the right operand, and they are gone when parsing or the division fails |
| Connections.ClientConnection.HandleBegin | client_connection.cpp:427-442 | Opens a transaction; a nested one fails the open one |
| Connections.ClientConnection.HandleCommit | client_connection.cpp:444-463 | Every locked table is committed and unlocked, no other table changes, the locked set is emptied; outside a transaction it fails |
| Connections.ClientConnection.ReleaseLoop | client_connection.cpp:451-454 | The loop over the locked tables, in any order, commits or drops each one's pending map and unlocks it, once each |
| Connections.ClientWorker | server.cpp:70-82 | A connection's whole life: the session on its byte stream, then the destructor's rollback |
| Servers.Server.CreateTable | server.cpp:90-98 | Under the registry lock, released on every exit, adds one new empty table or throws and changes nothing |
| Servers.Server.FindTable | server.cpp:99-109 | Under the registry lock, released on every exit, finds the registered table or throws |
| Tables.Table.TryLock | table.cpp:35-44 | Succeeds exactly on a free mutex and never waits |
| Tables.Table.Unlock | table.cpp:29-33 | Frees the mutex and keeps the maps |
| Tables.Table.Set | table.cpp:47-51 | Writes to the pending map only |
| Tables.Table.Get | table.cpp:53-67 | Finds the pending entry, else the committed one, else fails |
| Tables.Table.HasKey | table.cpp:69-80 | True exactly when a get succeeds |
| Tables.Table.CommitChanges | table.cpp:82-89 | The copying loop makes committed the old committed overlaid with pending, empties pending, and changes no key's visible value |
| Tables.Table.RollbackChanges | table.cpp:91-95 | Empties pending and keeps committed |
| Tables.TableIsLog | table.cpp:47-95 | After any sequence of sets, commits and rollbacks the committed map is the replay of exactly the sets that reached a commit, and the pending map of those still open |
| Tables.ReplayIsOverlay | table.cpp:82-89 | Replaying sets on a map is overlaying it with their last values |
| Tables.Guard.constructor | guard.h:15-19 | Takes the mutex if it is free; on a held one the guard is not acquired, which stands for a constructor that still waits, and nothing changes |
| Tables.Guard.Release | guard.h:21-24 | Releases the mutex |
| ValueStacks.ValueStack.Push | value_stack.cpp:19-23 | Adds on top |
| ValueStacks.ValueStack.GetTop | value_stack.cpp:25-34 | Returns the top without removing it, or fails on the empty stack |
| ValueStacks.ValueStack.Pop | value_stack.cpp:36-45 | Removes the top, or fails on the empty stack and leaves it |
| ValueStacks.ValueStack.IsEmpty | value_stack.cpp:13-17 | True exactly on the empty stack |
| ValueStacks.ValueStack.GetNumOfStack | value_stack.cpp:47-51 | The number of values |
| Messages.Message.IsValid | message.cpp:117-151 | The argument syntax of each message type, in both directions |
| Messages.Message.Assign | message.cpp:28-36 | Copies type and arguments, self-assignment included |
| Messages.Message.PushArg | message.cpp:86-89 | Appends an argument |
| Messages.Message.GetQuotedText | message.cpp:72-84 | Removes one pair of enclosing quotes exactly when both are there |
| Text.CheckIdentifier | message.cpp:91-101 | True exactly for a letter followed by letters, digits and underscores |
| Text.CheckValue | message.cpp:103-113 | True exactly for a non-empty text without white space |
| Refinement.SoloServe | client_connection.cpp:35-139 | Serving a line as the classes do, the other threads standing still, is a run of the state machine by that connection alone, with the same tables, session, locks and reply; where the class waits, the machine's connection is blocked |
| Refinement.SoloJob | client_connection.cpp:164-238 | The same for CREATE, GET and SET from the moment the thread asks for the registry |
| Refinement.SoloCommit | client_connection.cpp:444-463 | The machine's commit loop, run alone, does what the class's loop does |
| Refinement.SoloAbort | client_connection.cpp:112-122 | So does its rollback loop, with a reply or as the destructor |
| Refinement.SoloRelease | client_connection.cpp:451-454 | A release loop run alone releases every table it has left and nothing else |
| Refinement.SoloHangUp | client_connection.cpp:44-47 | End of input, run alone, is the destructor's rollback without a reply |
| Sittings.SoloChat | server.cpp:70-82 | A whole session on any byte stream, destructor included, the other threads standing still, is a run of the machine by that connection alone: same tables at the end, the bytes sent are the encodings of the replies, and a session that ends in a wait is blocked in the machine too |
| Sittings.SoloResume | guard.h:15-19 | A thread that had to wait goes on from whatever state the others have left as its handler would have begun there, to its reply or to the next wait |

## Left out

- Sockets, accept, listen, thread creation and descriptor closing: foreign calls. A connected socket is the peer's remaining bytes plus schedules that say how much each read and write moves and which are interrupted.
- The other functions of csapp.c: unused by the server's logic.
- Hard I/O errors, signals other than those that interrupt a read or write, failed allocations and failed mutex initialisation: assumed not to happen.
- Server shutdown and the destruction of tables: the server loop never returns in normal use.
- get_value.cpp, set_value.cpp, argument parsing, console and log output: scripts simpler than incr_value.cpp, and text nobody reads back.
- Serializability of "table does not exist" replies and rollback of CREATE: the program does not provide them. A CREATE takes effect at once, even inside a transaction, and is never undone.
- Liveness that depends on clients or on fair mutexes.
- Character classes beyond ASCII: the six white-space characters, letters and digits are those of the "C" locale.
- The second FailedTransaction catch clause: unreachable behind the first.
- The four arithmetic handlers are one method with the operator as a parameter, and the three release loops (COMMIT, FailedTransaction, destructor) one method with a flag: their code differs in nothing else but texts.
- An element of a std::set or std::map is visited in an arbitrary order, so the results hold for the program's order too.
- Connections.ClientConnection.HandleCreate: a call that meets a held mutex returns Waiting instead of waiting, because a class method runs while the other threads stand still; what the thread does once the mutex is free is Sittings.SoloResume and, freely interleaved, the state machine.
- Connections.ClientConnection.HandleGet: stops with Waiting at a held mutex, for the same reason; GetAuto, called again with the mutex free, is the rest of the handler on the state of that moment.
- Connections.ClientConnection.HandleSet: stops with Waiting at a held mutex, for the same reason; SetAuto is the rest of the handler.
- Connections.ClientConnection.HandleRequest: stops with Waiting at a held mutex, for the same reason.
- Connections.ClientConnection.ServeRequest: stops with WaitsForLock at a held mutex, for the same reason.
- Connections.ClientConnection.ChatWithClient: stops with WaitsForLock at a held mutex, for the same reason; in the state machine the session goes on.
- Connections.ClientWorker: stops with WaitsForLock at a held mutex, for the same reason, and then runs no destructor.
- Servers.Server.CreateTable: returns Waiting when another thread holds the registry, for the same reason.
- Servers.Server.FindTable: returns Waiting when another thread holds the registry, for the same reason.
- Tables.Guard.constructor: does not wait; a guard that is not acquired stands for a constructor that does.
- Crash of the whole process when encode throws inside a catch clause (985 or more characters of table name): the classes report it (Crashed); the state machine counts the reply that could not be sent and goes on, so its theorems cover more runs than there are.
- ValueStacks.Operate: signed overflow wraps around to 32 bits, where C++ leaves it undefined; Compiler.CompiledCorrectly and Increment.IncrementsAddUp speak about results in range.
- IncrValue.Client.constructor: the response buffer starts with arbitrary contents, as the uninitialised array does, and reading a C string that has no terminator in it stops at the array's end.
- IncrValue.SuccessWithoutCommit: a write to a socket the peer has closed completely can raise SIGPIPE, which ends the program; signals are left out, so the lemma is about a server that stops sending, or one whose reset arrives after the client's last write.
- IncrValue.ProgramIsClient: takes it that each request the server has answered came whole; one longer than a line is cut by the line reader and ends the session with an ERROR.
- Increment.NoLostUpdate: assumes, as its purpose demands, that nobody but the clients SETs the key. Runs without -t are not covered: their GET and SET are separate transactions, and the program does not promise that no update is lost.
- The project's own description calls the server free of races and deadlocks; Locks.AccessesAreLocked and Progress.NoDeadlock prove it for the mutexes and data modelled here.
