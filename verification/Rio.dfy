/** The buffered line reader and the writer of csapp.c over a socket. */
module Rio {
  const RIO_BUFSIZE: nat := 8192

  // What one system call does: it is interrupted, or it moves some bytes, at most limit of them.
  datatype IoEvent = Interrupted | Moves(limit: nat)

  function Min(a: nat, b: nat): nat {
    if a < b then a else b
  }

  // How many of n bytes a call moves: at least one when there are any.
  function Moved(events: seq<IoEvent>, n: nat): nat {
    if events == [] || n == 0 then n
    else if events[0].Interrupted? then 0
    else Min(n, events[0].limit + 1)
  }

  /** A connected socket. The peer's remaining bytes, end of file after them, and the schedules that
      say how each call to read and write behaves; past its schedule a call moves all it can. */
  class Descriptor {
    var incoming: seq<char>
    var outgoing: seq<char>
    var readPlan: seq<IoEvent>
    var writePlan: seq<IoEvent>

    constructor (incoming: seq<char>, readPlan: seq<IoEvent>, writePlan: seq<IoEvent>)
      ensures this.incoming == incoming && outgoing == []
      ensures this.readPlan == readPlan && this.writePlan == writePlan
    {
      this.incoming, this.outgoing, this.readPlan, this.writePlan := incoming, [], readPlan, writePlan;
    }

    // read(2): -1 when interrupted, 0 at end of file, else the number of bytes put into buf.
    method Read(buf: array<char>) returns (rc: int)
      requires buf.Length > 0
      modifies this`incoming, this`readPlan, buf
      ensures rc < 0 ==> incoming == old(incoming) && |readPlan| < |old(readPlan)|
      ensures rc == 0 ==> incoming == old(incoming) == []
      ensures rc > 0 ==> rc <= buf.Length && rc <= |old(incoming)|
      ensures rc > 0 ==> buf[..rc] == old(incoming)[..rc] && incoming == old(incoming)[rc..]
      ensures rc >= 0 ==> |readPlan| <= |old(readPlan)|
    {
      var interrupted := readPlan != [] && readPlan[0].Interrupted?;
      var n := Moved(readPlan, Min(buf.Length, |incoming|));
      if readPlan != [] {
        readPlan := readPlan[1..];
      }
      if interrupted {
        return -1;
      }
      for i := 0 to n
        invariant buf[..i] == incoming[..i]
        modifies buf
      {
        buf[i] := incoming[i];
      }
      incoming := incoming[n..];
      return n;
    }

    // write(2): -1 when interrupted, else the positive number of bytes sent.
    method Write(bytes: seq<char>) returns (rc: int)
      requires bytes != []
      modifies this`outgoing, this`writePlan
      ensures rc < 0 ==> outgoing == old(outgoing) && |writePlan| < |old(writePlan)|
      ensures rc >= 0 ==> 0 < rc <= |bytes| && outgoing == old(outgoing) + bytes[..rc]
      ensures rc >= 0 ==> |writePlan| <= |old(writePlan)|
    {
      var interrupted := writePlan != [] && writePlan[0].Interrupted?;
      var n := Moved(writePlan, |bytes|);
      if writePlan != [] {
        writePlan := writePlan[1..];
      }
      if interrupted {
        return -1;
      }
      outgoing := outgoing + bytes[..n];
      return n;
    }

    // rio_writen: every byte is sent, whatever the schedule.
    method WriteN(bytes: seq<char>) returns (n: nat)
      modifies this`outgoing, this`writePlan
      ensures n == |bytes| && outgoing == old(outgoing) + bytes
    {
      var sent := 0;
      while sent < |bytes|
        invariant 0 <= sent <= |bytes| && outgoing == old(outgoing) + bytes[..sent]
        decreases |bytes| - sent, |writePlan|
      {
        var rc := Write(bytes[sent..]);
        if rc > 0 {
          assert bytes[..sent] + bytes[sent..][..rc] == bytes[..sent + rc];
          sent := sent + rc;
        }
      }
      assert bytes[..sent] == bytes;
      return |bytes|;
    }
  }

  // The line a reader limited to limit bytes takes off the front of s.
  function LineOf(s: seq<char>, limit: nat): seq<char> {
    if s == [] || limit == 0 then []
    else if s[0] == '\n' then [s[0]]
    else [s[0]] + LineOf(s[1..], limit - 1)
  }

  // It is a prefix of s, and it stops at the earliest of the first newline, the limit and the end.
  lemma {:induction false} LineOfIsShortest(s: seq<char>, limit: nat)
    ensures var n := |LineOf(s, limit)|;
            && n <= limit && n <= |s| && LineOf(s, limit) == s[..n]
            && (forall i :: 0 <= i < n - 1 ==> s[i] != '\n')
            && (n == limit || n == |s| || (n > 0 && s[n - 1] == '\n'))
  {
    if s != [] && limit != 0 && s[0] != '\n' {
      LineOfIsShortest(s[1..], limit - 1);
    }
  }

  lemma {:induction false} LineOfAppend(s: seq<char>, k: nat, limit: nat)
    requires k < |s| && k < limit && '\n' !in s[..k]
    ensures LineOf(s, limit) == s[..k] + LineOf(s[k..], limit - k)
  {
    if k > 0 {
      assert s[1..][..k - 1] == s[..k][1..];
      LineOfAppend(s[1..], k - 1, limit - 1);
      assert s[1..][k - 1..] == s[k..];
    }
  }

  // A string with its only newline at the end is exactly the next line.
  lemma LineOfTerminated(line: seq<char>, rest: seq<char>, limit: nat)
    requires 0 < |line| <= limit && line[|line| - 1] == '\n' && '\n' !in line[..|line| - 1]
    ensures LineOf(line + rest, limit) == line
  {
    var k := |line| - 1;
    assert (line + rest)[..k] == line[..k];
    LineOfAppend(line + rest, k, limit);
    assert (line + rest)[k..][0] == '\n';
  }

  // The reader has moved got from the front of all; rest is still to come.
  ghost predicate Taken(all: seq<char>, got: seq<char>, rest: seq<char>, limit: nat) {
    && |got| <= limit && got + rest == all
    && LineOf(all, limit) == got + LineOf(rest, limit - |got|)
  }

  // The reader has taken the whole line off the front of all.
  ghost predicate Ended(all: seq<char>, got: seq<char>, rest: seq<char>, limit: nat) {
    LineOf(all, limit) == got && got + rest == all
  }

  lemma TakenStep(all: seq<char>, got: seq<char>, c: char, rest: seq<char>, limit: nat)
    requires Taken(all, got, [c] + rest, limit) && |got| < limit
    ensures c == '\n' ==> Ended(all, got + [c], rest, limit)
    ensures c != '\n' ==> Taken(all, got + [c], rest, limit)
  {
    assert ([c] + rest)[1..] == rest;
    assert got + ([c] + LineOf(rest, limit - |got| - 1)) == (got + [c]) + LineOf(rest, limit - |got| - 1);
    assert got + ([c] + rest) == (got + [c]) + rest;
  }

  lemma TakenEnd(all: seq<char>, got: seq<char>, rest: seq<char>, limit: nat)
    requires Taken(all, got, rest, limit) && (|got| == limit || rest == [])
    ensures Ended(all, got, rest, limit)
  {
  }

  lemma TakenStart(all: seq<char>, limit: nat)
    ensures Taken(all, [], all, limit)
  {
  }

  lemma FirstAndRest(s: seq<char>, c: char)
    requires s != [] && s[..1] == [c]
    ensures s == [c] + s[1..]
  {
    assert s == s[..1] + s[1..];
  }

  class RioBuffer {
    const fd: Descriptor
    const buf: array<char>
    var cnt: int
    var ptr: nat

    ghost predicate Valid()
      reads this
    {
      buf.Length == RIO_BUFSIZE && ptr + cnt <= RIO_BUFSIZE
    }

    // Bytes received and not yet delivered.
    ghost function Unread(): seq<char>
      reads this, buf
      requires Valid()
    {
      if cnt > 0 then buf[ptr..ptr + cnt] else []
    }

    // All bytes the reader has still to deliver.
    ghost function Stream(): seq<char>
      reads this, buf, fd`incoming
      requires Valid()
    {
      Unread() + fd.incoming
    }

    // rio_readinitb
    constructor (fd: Descriptor)
      ensures Valid() && this.fd == fd && fresh(buf) && Stream() == fd.incoming
    {
      this.fd := fd;
      this.buf := new char[RIO_BUFSIZE](_ => '\0');
      this.cnt, this.ptr := 0, 0;
    }

    // The refill loop of rio_read: read until there are bytes or the peer has closed.
    // An interrupted read is tried again.
    method Refill()
      requires Valid()
      modifies this`cnt, this`ptr, buf, fd`incoming, fd`readPlan
      ensures Valid() && Stream() == old(Stream())
      ensures cnt <= 0 ==> Stream() == []
    {
      while cnt <= 0
        invariant Valid() && Stream() == old(Stream())
        decreases |fd.readPlan|, cnt <= 0
      {
        var got := fd.Read(buf);
        cnt := got;
        ptr := 0;
        if got == 0 {
          return;
        }
      }
    }

    // The copy that ends rio_read.
    method Deliver(usrbuf: array<char>, rc: nat)
      requires Valid() && usrbuf != buf && rc <= usrbuf.Length && rc <= cnt
      modifies this`cnt, this`ptr, usrbuf
      ensures Valid() && rc <= |old(Stream())|
      ensures usrbuf[..rc] == old(Stream())[..rc] && usrbuf[rc..] == old(usrbuf[rc..])
      ensures Stream() == old(Stream())[rc..]
    {
      ghost var from, bytes, tail := ptr, buf[ptr..ptr + cnt], fd.incoming;
      assert cnt > 0 ==> Stream() == bytes + tail;
      CopyOut(usrbuf, rc);
      ptr := ptr + rc;
      cnt := cnt - rc;
      assert bytes[rc..] == buf[ptr..ptr + cnt];
      assert (bytes + tail)[rc..] == bytes[rc..] + tail && (bytes + tail)[..rc] == bytes[..rc];
      assert bytes[..rc] == buf[from..from + rc];
    }

    // memcpy
    method CopyOut(usrbuf: array<char>, rc: nat)
      requires Valid() && usrbuf != buf && rc <= usrbuf.Length && rc <= cnt
      modifies usrbuf
      ensures usrbuf[..rc] == buf[ptr..ptr + rc] && usrbuf[rc..] == old(usrbuf[rc..])
    {
      for i := 0 to rc
        invariant forall j :: 0 <= j < i ==> usrbuf[j] == buf[ptr + j]
        invariant forall j :: rc <= j < usrbuf.Length ==> usrbuf[j] == old(usrbuf[j])
      {
        usrbuf[i] := buf[ptr + i];
      }
    }

    // rio_read, with the user's buffer at least n long.
    method Read(usrbuf: array<char>, n: nat) returns (rc: nat)
      requires Valid() && usrbuf != buf && n <= usrbuf.Length
      modifies this`cnt, this`ptr, buf, fd`incoming, fd`readPlan, usrbuf
      ensures Valid()
      ensures rc <= n && rc <= |old(Stream())|
      ensures rc == 0 <==> n == 0 || old(Stream()) == []
      ensures usrbuf[..rc] == old(Stream())[..rc] && usrbuf[rc..] == old(usrbuf[rc..])
      ensures Stream() == old(Stream())[rc..]
    {
      Refill();
      if cnt <= 0 {
        return 0;
      }
      rc := n;
      if cnt < n {
        rc := cnt;
      }
      Deliver(usrbuf, rc);
    }

    // rio_read of one byte, as the line reader calls it.
    method ReadChar() returns (rc: nat, c: char)
      requires Valid()
      modifies this`cnt, this`ptr, buf, fd`incoming, fd`readPlan
      ensures Valid() && rc <= 1
      ensures rc == 0 ==> old(Stream()) == [] && Stream() == []
      ensures rc == 1 ==> old(Stream()) == [c] + Stream()
    {
      var cell := new char[1];
      ghost var all := Stream();
      rc := Read(cell, 1);
      c := cell[0];
      if rc == 1 {
        assert cell[..1] == [c];
        FirstAndRest(all, c);
      }
    }

    // One pass of the loop of rio_readlineb: another character, the last one of the line, or the end
    // of file.
    method TakeChar(usrbuf: array<char>, n: nat, limit: nat, ghost all: seq<char>) returns (taken: bool, last: bool)
      requires Valid() && usrbuf != buf && n < limit < usrbuf.Length
      requires Taken(all, usrbuf[..n], Stream(), limit)
      modifies this`cnt, this`ptr, buf, fd`incoming, fd`readPlan, usrbuf
      ensures Valid()
      ensures !taken ==> last && usrbuf[..] == old(usrbuf[..]) && Ended(all, usrbuf[..n], Stream(), limit)
      ensures taken && last ==> Ended(all, usrbuf[..n + 1], Stream(), limit)
      ensures taken && !last ==> Taken(all, usrbuf[..n + 1], Stream(), limit)
    {
      hide LineOf, Taken, Ended;
      ghost var got := usrbuf[..n];
      var rc, c := ReadChar();
      if rc == 0 {
        TakenEnd(all, got, [], limit);
        return false, true;
      }
      TakenStep(all, got, c, Stream(), limit);
      StoreChar(usrbuf, n, c);
      return true, c == '\n';
    }

    // rio_readlineb: the next line, as a C string in the user's buffer.
    method ReadLine(usrbuf: array<char>, maxlen: nat) returns (n: nat)
      requires Valid() && usrbuf != buf && 1 <= maxlen <= usrbuf.Length
      modifies this`cnt, this`ptr, buf, fd`incoming, fd`readPlan, usrbuf
      ensures Valid() && n < maxlen
      ensures usrbuf[..n] == LineOf(old(Stream()), maxlen - 1)
      ensures usrbuf[..n] + Stream() == old(Stream())
      ensures n > 0 ==> usrbuf[n] == '\0'
      ensures n == 0 && maxlen > 1 ==> usrbuf[..] == old(usrbuf[..])
    {
      hide LineOf, Taken, Stream, Valid;
      ghost var all, before := Stream(), usrbuf[..];
      TakenStart(all, maxlen - 1);
      n := 0;
      var last := false;
      while n < maxlen - 1 && !last
        invariant Valid() && n < maxlen
        invariant n == 0 ==> !last && usrbuf[..] == before
        invariant last ==> Ended(all, usrbuf[..n], Stream(), maxlen - 1)
        invariant !last ==> Taken(all, usrbuf[..n], Stream(), maxlen - 1)
        decreases maxlen - n, !last
      {
        var taken;
        taken, last := TakeChar(usrbuf, n, maxlen - 1, all);
        if taken {
          n := n + 1;
        } else if n == 0 {
          return;
        }
      }
      if !last {
        TakenEnd(all, usrbuf[..n], Stream(), maxlen - 1);
      }
      StoreChar(usrbuf, n, '\0');
    }

    // *bufp = c
    method StoreChar(usrbuf: array<char>, n: nat, c: char)
      requires Valid() && usrbuf != buf && n < usrbuf.Length
      modifies usrbuf
      ensures usrbuf[..n] == old(usrbuf[..n]) && usrbuf[n] == c && usrbuf[..n + 1] == usrbuf[..n] + [c]
      ensures Stream() == old(Stream())
    {
      usrbuf[n] := c;
    }
  }
}
