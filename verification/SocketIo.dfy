/** send_msg and read_msg (src/core/socket_server/socket_io.h) against an adversarial kernel. */
module SocketIo {
  import opened Wrappers
  import opened Messages
  import opened Numbers

  /** What the kernel answers to one send() or read() on a non-blocking stream socket. `Moved(n)`
      asks for `n` bytes and transfers as many of them as fit, at least one; `Broken` is any error
      other than EAGAIN, EWOULDBLOCK and EINTR. */
  datatype Answer = Moved(n: nat) | Eof | Again | Interrupted | Broken

  datatype Errno = EAGAIN | EINTR | EOTHER

  /** The three kinds of result of a message transfer: size, 0, or negative with errno set. */
  datatype Outcome = Whole | Closed | Failed(errno: Errno)

  /** A finished transfer: its result, the bytes that crossed, and the position of the next answer. */
  datatype Xfer = Xfer(outcome: Outcome, moved: nat, at: nat)

  function Clamp(n: nat, room: nat): (k: nat)
    requires room > 0
    ensures 1 <= k <= room
    ensures 1 <= n <= room ==> k == n
  {
    if n == 0 then 1 else if n < room then n else room
  }

  /** The answer at position `at`, when `avail` more bytes can cross: after the scripted answers the
      connection is broken for good, and a stream with nothing left to give is at its end. */
  function Next(answers: seq<Answer>, at: nat, avail: nat): (a: Answer)
    ensures a.Moved? ==> avail > 0 && at < |answers|
  {
    if at >= |answers| then Broken
    else if answers[at].Moved? && avail == 0 then Eof
    else answers[at]
  }

  /** socket_wait_and_retry: `None` is "wait, then retry". */
  function WaitAndRetry(done: nat, a: Answer): (o: Option<Outcome>)
    requires !a.Moved?
  {
    match a
    case Eof => Some(Closed)
    case Broken => Some(if done == 0 then Failed(EOTHER) else Closed)
    case Again => if done == 0 then Some(Failed(EAGAIN)) else None
    case Interrupted => if done == 0 then Some(Failed(EINTR)) else None
  }

  /** The transfer of a message of `size` bytes, `done` of which have crossed already. */
  function Transfer(done: nat, size: nat, avail: nat, answers: seq<Answer>, at: nat): (x: Xfer)
    requires done <= size
    ensures done <= x.moved <= size && x.moved - done <= avail && at <= x.at
    ensures x.outcome.Whole? ==> x.moved == size
    decreases |answers| - at
  {
    if done == size then Xfer(Whole, done, at)
    else
      var a := Next(answers, at, avail);
      if a.Moved? then
        var k := Clamp(a.n, Min(size - done, avail));
        Transfer(done + k, size, avail - k, answers, at + 1)
      else
        match WaitAndRetry(done, a)
        case Some(o) => Xfer(o, done, at + 1)
        case None => Transfer(done, size, avail, answers, at + 1)
  }

  /** What a caller may conclude from the result alone. */
  lemma {:induction false} TransferContract(done: nat, size: nat, avail: nat, answers: seq<Answer>, at: nat)
    requires done <= size && size > 0
    ensures var x := Transfer(done, size, avail, answers, at);
            && (x.outcome.Whole? <==> x.moved == size)
            && (x.outcome.Failed? ==> done == 0 && x.moved == 0)
            && (x.outcome.Closed? ==> x.moved < size)
    decreases |answers| - at
  {
    if done < size {
      var a := Next(answers, at, avail);
      if a.Moved? {
        var k := Clamp(a.n, Min(size - done, avail));
        TransferContract(done + k, size, avail - k, answers, at + 1);
      } else if WaitAndRetry(done, a).None? {
        TransferContract(done, size, avail, answers, at + 1);
      }
    }
  }

  /** The bytes the answers in [from, to) pay for. */
  function Offered(answers: seq<Answer>, from: nat, to: nat): (n: nat)
    requires from <= to <= |answers|
    decreases |answers| - from
  {
    if from == to then 0
    else (if !answers[from].Moved? then 0 else if answers[from].n == 0 then 1 else answers[from].n)
         + Offered(answers, from + 1, to)
  }

  ghost predicate NoHangUp(answers: seq<Answer>, from: nat, to: nat)
    requires from <= to <= |answers|
  {
    forall i :: from <= i < to ==> !answers[i].Eof? && !answers[i].Broken?
  }

  /** Some run of answers from `at` on, with no end of stream in it, pays for `need` bytes. */
  ghost predicate PaysFor(answers: seq<Answer>, at: nat, need: nat)
  {
    exists k :: at <= k <= |answers| && NoHangUp(answers, at, k) && Offered(answers, at, k) >= need
  }

  /** A message crosses whole exactly when the kernel starts it at once and goes on paying for all
      of its bytes before it hangs up; EAGAIN and EINTR in between change nothing. */
  lemma {:induction false} TransferWholeIff(done: nat, size: nat, avail: nat, answers: seq<Answer>, at: nat)
    requires done < size && avail >= size - done
    ensures Transfer(done, size, avail, answers, at).outcome.Whole? <==>
            PaysFor(answers, at, size - done) && (done == 0 ==> answers[at].Moved?)
    decreases |answers| - at
  {
    if at < |answers| {
      PaysForNext(answers, at, size - done);
      var a := answers[at];
      if a.Moved? {
        var k := Clamp(a.n, Min(size - done, avail));
        if done + k < size {
          TransferWholeIff(done + k, size, avail - k, answers, at + 1);
        }
      } else if WaitAndRetry(done, a).None? {
        TransferWholeIff(done, size, avail, answers, at + 1);
      }
    }
  }

  lemma {:induction false} PaysForNext(answers: seq<Answer>, at: nat, need: nat)
    requires need > 0 && at < |answers|
    ensures PaysFor(answers, at, need) <==>
            && !answers[at].Eof? && !answers[at].Broken?
            && var got := Offered(answers, at, at + 1);
               got >= need || PaysFor(answers, at + 1, need - got)
  {
    var got := Offered(answers, at, at + 1);
    if PaysFor(answers, at, need) {
      var k :| at <= k <= |answers| && NoHangUp(answers, at, k) && Offered(answers, at, k) >= need;
      assert got < need ==> NoHangUp(answers, at + 1, k) && Offered(answers, at + 1, k) >= need - got;
    }
    if !answers[at].Eof? && !answers[at].Broken? {
      assert NoHangUp(answers, at, at + 1);
      if got < need && PaysFor(answers, at + 1, need - got) {
        var k :| at + 1 <= k <= |answers| && NoHangUp(answers, at + 1, k) && Offered(answers, at + 1, k) >= need - got;
        assert Offered(answers, at + 1, at + 1) == 0;
        assert Offered(answers, at, k) == got + Offered(answers, at + 1, k);
        assert NoHangUp(answers, at, k);
      }
    }
  }

  /** One end of a connected stream socket. */
  class Socket {
    const answers: seq<Answer>   // what the kernel answers, call after call
    const incoming: seq<byte>    // every byte the peer ever puts on this connection
    var at: nat                  // calls made so far
    var taken: nat               // bytes read so far
    var sent: seq<byte>          // bytes given to the kernel so far

    ghost predicate Valid() reads this { taken <= |incoming| }

    constructor (answers: seq<Answer>, incoming: seq<byte>)
      ensures this.answers == answers && this.incoming == incoming
      ensures Valid() && at == 0 && taken == 0 && sent == []
    {
      this.answers, this.incoming := answers, incoming;
      at, taken, sent := 0, 0, [];
    }

    /** send(fd, buf + from, |buf| - from, MSG_NOSIGNAL) */
    method Send(buf: seq<byte>, from: nat) returns (r: int, errno: Errno)
      requires from < |buf|
      modifies this`at, this`sent
      ensures at == old(at) + 1
      ensures var a := Next(answers, old(at), |buf| - from);
              if a.Moved? then
                r == Clamp(a.n, |buf| - from) && sent == old(sent) + buf[from..from + r]
              else
                r == (if a.Eof? then 0 else -1) && sent == old(sent) && errno == ErrnoOf(a)
    {
      var a := Next(answers, at, |buf| - from);
      at := at + 1;
      errno := ErrnoOf(a);
      if a.Moved? {
        r := Clamp(a.n, |buf| - from);
        sent := sent + buf[from..from + r];
      } else {
        r := if a.Eof? then 0 else -1;
      }
    }

    /** read(fd, buf + from, buf.Length - from) */
    method Read(buf: array<byte>, from: nat) returns (r: int, errno: Errno)
      requires Valid() && from < buf.Length
      modifies this`at, this`taken, buf
      ensures Valid() && at == old(at) + 1
      ensures var a := Next(answers, old(at), |incoming| - old(taken));
              if a.Moved? then
                && r == Clamp(a.n, Min(buf.Length - from, |incoming| - old(taken)))
                && taken == old(taken) + r
                && (forall i :: from <= i < from + r ==> buf[i] == incoming[old(taken) + i - from])
                && (forall i :: 0 <= i < from || from + r <= i < buf.Length ==> buf[i] == old(buf[i]))
              else
                && r == (if a.Eof? then 0 else -1) && errno == ErrnoOf(a)
                && taken == old(taken) && unchanged(buf)
    {
      var a := Next(answers, at, |incoming| - taken);
      at := at + 1;
      errno := ErrnoOf(a);
      if a.Moved? {
        r := Clamp(a.n, Min(buf.Length - from, |incoming| - taken));
        forall i | from <= i < from + r {
          buf[i] := incoming[taken + i - from];
        }
        taken := taken + r;
      } else {
        r := if a.Eof? then 0 else -1;
      }
    }
  }

  function ErrnoOf(a: Answer): Errno
  {
    match a
    case Again => EAGAIN
    case Interrupted => EINTR
    case _ => EOTHER
  }

  /** The C result of a transfer. */
  function Code(x: Xfer): int
  {
    match x.outcome
    case Whole => x.moved
    case Closed => 0
    case Failed(_) => -1
  }

  method SocketWaitAndRetry(done: nat, r: int, errno: Errno) returns (again: int)
    requires r <= 0
    ensures done == 0 ==> again == r
    ensures done > 0 ==> again == (if r < 0 && errno != EOTHER then 1 else 0)
  {
    if done == 0 {
      return r;
    }
    if r < 0 && (errno == EAGAIN || errno == EINTR) {
      return 1;
    }
    return 0;
  }

  /** The message goes out in order from its first byte, and the result says how much of it did. */
  method SendMsg(s: Socket, buf: seq<byte>) returns (r: int, errno: Errno)
    modifies s`at, s`sent
    ensures var x := Transfer(0, |buf|, |buf|, s.answers, old(s.at));
            && r == Code(x)
            && (x.outcome.Failed? ==> errno == x.outcome.errno)
            && s.sent == old(s.sent) + buf[..x.moved]
            && s.at == x.at
  {
    var done := 0;
    errno := EOTHER;
    ghost var x := Transfer(0, |buf|, |buf|, s.answers, s.at);
    while done < |buf|
      invariant 0 <= done <= |buf|
      invariant x == Transfer(done, |buf|, |buf| - done, s.answers, s.at)
      invariant s.sent == old(s.sent) + buf[..done]
      decreases |buf| - done, |s.answers| - s.at
    {
      r, errno := s.Send(buf, done);
      if r > 0 {
        assert buf[..done] + buf[done..done + r] == buf[..done + r];
        done := done + r;
      } else {
        r := SocketWaitAndRetry(done, r, errno);
        if r <= 0 {
          return r, errno;
        }
      }
    }
    return done, errno;
  }

  /** The buffer is filled in order from its first byte with the next bytes of the stream, and
      nothing beyond the bytes that crossed is touched. */
  method ReadMsg(s: Socket, buf: array<byte>) returns (r: int, errno: Errno)
    requires s.Valid()
    modifies s`at, s`taken, buf
    ensures s.Valid()
    ensures var x := Transfer(0, buf.Length, |s.incoming| - old(s.taken), s.answers, old(s.at));
            && r == Code(x)
            && (x.outcome.Failed? ==> errno == x.outcome.errno)
            && (forall i :: 0 <= i < x.moved ==> buf[i] == s.incoming[old(s.taken) + i])
            && (forall i :: x.moved <= i < buf.Length ==> buf[i] == old(buf[i]))
            && s.taken == old(s.taken) + x.moved
            && s.at == x.at
  {
    var done := 0;
    errno := EOTHER;
    ghost var x := Transfer(0, buf.Length, |s.incoming| - s.taken, s.answers, s.at);
    while done < buf.Length
      invariant s.Valid() && 0 <= done <= buf.Length && s.taken == old(s.taken) + done
      invariant x == Transfer(done, buf.Length, |s.incoming| - s.taken, s.answers, s.at)
      invariant forall i :: 0 <= i < done ==> buf[i] == s.incoming[old(s.taken) + i]
      invariant forall i :: done <= i < buf.Length ==> buf[i] == old(buf[i])
      decreases buf.Length - done, |s.answers| - s.at
    {
      r, errno := s.Read(buf, done);
      if r > 0 {
        done := done + r;
      } else {
        r := SocketWaitAndRetry(done, r, errno);
        if r <= 0 {
          return r, errno;
        }
      }
    }
    return done, errno;
  }
}
