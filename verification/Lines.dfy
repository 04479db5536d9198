/** The line of a request, from the socket to the C string that decode reads. */
module Lines {
  import opened Serialization
  import opened Rio

  // Longest line rio_readlineb delivers into a buffer of MAX_ENCODED_LEN bytes.
  const MAX_LINE: nat := 1023

  // The C string in a buffer that holds a line and its terminator.
  lemma {:induction false} CStringOfBuffer(line: string, rest: string)
    ensures CString(line + ['\0'] + rest) == CString(line)
  {
    if line != [] && line[0] != '\0' {
      assert (line + ['\0'] + rest)[1..] == line[1..] + ['\0'] + rest;
      CStringOfBuffer(line[1..], rest);
    }
  }

  // The C string at the start of a char array.
  method ReadCString(buf: array<char>, n: nat) returns (s: string)
    requires n < buf.Length && buf[n] == '\0'
    ensures s == CString(buf[..n])
  {
    ghost var line := buf[..n];
    s := CString(buf[..]);
    assert buf[..] == line + ['\0'] + buf[n + 1..];
    CStringOfBuffer(line, buf[n + 1..]);
  }

  lemma DropPrefix(line: seq<char>, rest: seq<char>, all: seq<char>)
    requires line + rest == all
    ensures |line| <= |all| && all[|line|..] == rest
  {
  }

  // rio_readlineb into a buffer of MAX_ENCODED_LEN bytes, and the string decode is given.
  method NextLine(rio: RioBuffer) returns (n: nat, encoded: string, ghost line: string)
    requires rio.Valid()
    modifies rio`cnt, rio`ptr, rio.buf, rio.fd`incoming, rio.fd`readPlan
    ensures rio.Valid() && line == LineOf(old(rio.Stream()), MAX_LINE) && n == |line|
    ensures n <= |old(rio.Stream())| && rio.Stream() == old(rio.Stream())[n..]
    ensures n == 0 ==> old(rio.Stream()) == []
    ensures n > 0 ==> encoded == CString(line)
  {
    hide CString, LineOf;
    ghost var all := rio.Stream();
    var buf := new char[MAX_ENCODED_LEN];
    n := rio.ReadLine(buf, MAX_ENCODED_LEN);
    line := buf[..n];
    ghost var rest := rio.Stream();
    DropPrefix(line, rest, all);
    LineOfIsShortest(all, MAX_LINE);
    encoded := [];
    if n > 0 {
      encoded := ReadCString(buf, n);
    }
  }
}
