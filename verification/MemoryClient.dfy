/** sw_client.cpp over its two connections, and what it gets from a memory server at the other end: the streams
    deliver, in order, the bytes they were given. */
module MemoryClient {
  import opened Wrappers
  import opened Numbers
  import opened Messages
  import opened SocketIo
  import opened Host
  import opened Clients
  import opened Memory
  import opened MemoryWire
  import opened RemoteMemory

  /** Between two calls, in a call that waits for its response, stopped by assert(r > 0). */
  datatype Status = Ready | Waiting | Stopped

  /** The connections to "rw_cmd" and "rw_rsp", the commands sent whole, and the responses received. */
  datatype Client = Client(cmd: Conn, rsp: Conn, status: Status, calls: seq<Cmd>, results: seq<uint64>)

  datatype ClientEvent = Sends(cmd: Cmd) | Receives

  function Connects(cmd: Peer, rsp: Peer): Client { Client(Opened(cmd), Opened(rsp), Ready, [], []) }

  predicate ClientOk(c: Client) { c.rsp.taken <= |c.rsp.peer.incoming| }

  function SendCmd(c: Client, cmd: Cmd): Client
  {
    var x := SendOn(c.cmd, CmdBytes(cmd));
    var conn := c.cmd.(at := x.at, sent := c.cmd.sent + CmdBytes(cmd)[..x.moved]);
    if x.outcome.Whole? then c.(cmd := conn, status := Waiting, calls := c.calls + [cmd])
    else c.(cmd := conn, status := Stopped)
  }

  function ReceiveRsp(c: Client): Client
    requires ClientOk(c)
  {
    var x := ReadOn(c.rsp, RSP_SIZE);
    var conn := c.rsp.(at := x.at, taken := c.rsp.taken + x.moved);
    if x.outcome.Whole? then
      c.(rsp := conn, status := Ready, results := c.results + [BytesRsp(c.rsp.peer.incoming[c.rsp.taken..conn.taken])])
    else c.(rsp := conn, status := Stopped)
  }

  function ClientNext(c: Client, e: ClientEvent): (c': Client)
    requires ClientOk(c)
    ensures ClientOk(c')
  {
    match e
    case Sends(cmd) => if c.status.Ready? then SendCmd(c, cmd) else c
    case Receives => if c.status.Waiting? then ReceiveRsp(c) else c
  }

  function ClientRuns(c: Client, es: seq<ClientEvent>): (c': Client)
    requires ClientOk(c)
    ensures ClientOk(c')
  {
    if es == [] then c else ClientNext(ClientRuns(c, es[..|es| - 1]), es[|es| - 1])
  }

  /** The bytes read from a connection. */
  function BytesRead(c: Conn): seq<byte>
    requires c.taken <= |c.peer.incoming|
  {
    c.peer.incoming[..c.taken]
  }

  /** The commands and the responses are the whole messages of the connections. */
  ghost predicate CallsSent(c: Client) { Chunks(c.cmd.sent, CMD_SIZE) == CmdMsgs(c.calls) }

  ghost predicate ResultsRead(c: Client)
    requires ClientOk(c)
  {
    c.results == Rsps(Chunks(BytesRead(c.rsp), RSP_SIZE))
  }

  /** And one call waits at most. */
  ghost predicate ClientInv(c: Client)
  {
    && ClientOk(c) && CallsSent(c) && ResultsRead(c)
    && (!c.status.Stopped? ==> Tail(c.cmd.sent, CMD_SIZE) == [] && Tail(BytesRead(c.rsp), RSP_SIZE) == [])
    && (match c.status
        case Ready => |c.calls| == |c.results|
        case Waiting => |c.calls| == |c.results| + 1
        case Stopped => |c.results| <= |c.calls| <= |c.results| + 1)
  }

  lemma SendKeeps(c: Client, cmd: Cmd)
    requires ClientInv(c) && c.status.Ready?
    ensures ClientInv(SendCmd(c, cmd))
  {
    hide Chunks, Tail, SendOn, CmdBytes;
    CmdRoundTrip(cmd);
    SendAligned(c.cmd, CmdBytes(cmd), CMD_SIZE);
    assert CmdMsgs(c.calls + [cmd]) == CmdMsgs(c.calls) + [CmdBytes(cmd)];
  }

  lemma ReceiveKeeps(c: Client)
    requires ClientInv(c) && c.status.Waiting?
    ensures ClientInv(ReceiveRsp(c))
  {
    hide Chunks, Tail, Transfer, BytesRsp;
    ReadAligned(c.rsp, RSP_SIZE);
    var x := ReadOn(c.rsp, RSP_SIZE);
    var c' := ReceiveRsp(c);
    if x.outcome.Whole? {
      var m := c.rsp.peer.incoming[c.rsp.taken..c'.rsp.taken];
      var ms := Chunks(BytesRead(c.rsp), RSP_SIZE);
      assert Rsps(ms + [m]) == Rsps(ms) + [BytesRsp(m)];
    }
  }

  lemma {:induction false} ClientRun(cmd: Peer, rsp: Peer, es: seq<ClientEvent>)
    ensures ClientInv(ClientRuns(Connects(cmd, rsp), es))
  {
    hide ClientInv, SendCmd, ReceiveRsp;
    if es == [] {
      FreshClient(cmd, rsp);
    } else {
      ClientRun(cmd, rsp, es[..|es| - 1]);
      var c := ClientRuns(Connects(cmd, rsp), es[..|es| - 1]);
      match es[|es| - 1] {
        case Sends(m) =>
          if c.status.Ready? {
            SendKeeps(c, m);
          }
        case Receives =>
          if c.status.Waiting? {
            ReceiveKeeps(c);
          }
      }
    }
  }

  lemma FreshClient(cmd: Peer, rsp: Peer)
    ensures ClientInv(Connects(cmd, rsp))
  {
  }

  // ---- a client and its server ----

  function First<T>(xs: seq<T>, n: nat): seq<T> { if n <= |xs| then xs[..n] else xs }

  lemma FirstIsAll<T>(xs: seq<T>, n: nat)
    ensures n >= |xs| ==> First(xs, n) == xs
  {
  }

  function ReadAt(cs: seq<Conn>, i: nat): seq<byte>
    requires forall c :: c in cs ==> c.taken <= |c.peer.incoming|
  {
    if i < |cs| then BytesRead(cs[i]) else []
  }

  function SentAt(cs: seq<Conn>, j: nat): seq<byte> { if j < |cs| then cs[j].sent else [] }

  /** The commands pulled from the first `i` connections, and the responses sent to the first `j`. */
  function PulledFrom(cmd: PullSide, i: nat): (n: nat)
    requires PullInv(cmd, CMD_SIZE)
  {
    Before(Conns(cmd.svc), i)
  }

  predicate ReadOk(cs: seq<Conn>) { forall c :: c in cs ==> c.taken <= |c.peer.incoming| }

  function Before(cs: seq<Conn>, i: nat): (n: nat)
    requires ReadOk(cs)
  {
    |Returned(First(cs, i), CMD_SIZE)|
  }

  function SentTo(rsp: Service, j: nat): (n: nat) { |Received(First(Conns(rsp), j), RSP_SIZE)| }

  /** The client is number `i` of the server's command connections and number `j` of its response connections, or
      not accepted yet: every byte read at one end has been sent at the other, in order. */
  ghost predicate Linked(cmd: PullSide, rsp: Service, c: Client, i: nat, j: nat)
    requires ClientOk(c) && PullInv(cmd, CMD_SIZE)
  {
    ReadAt(Conns(cmd.svc), i) <= c.cmd.sent && BytesRead(c.rsp) <= SentAt(Conns(rsp), j)
  }

  /** The messages read from a connection are its slice of all the messages pulled. */
  lemma {:induction false} ReturnedSlice(cs: seq<Conn>, i: nat)
    requires forall c :: c in cs ==> c.taken <= |c.peer.incoming|
    requires i < |cs|
    ensures forall c :: c in cs[..i] ==> c in cs
    ensures forall c :: c in cs[..i + 1] ==> c in cs
    ensures var lo, hi := |Returned(cs[..i], CMD_SIZE)|, |Returned(cs[..i + 1], CMD_SIZE)|;
            lo <= hi <= |Returned(cs, CMD_SIZE)|
            && Chunks(BytesRead(cs[i]), CMD_SIZE) == Returned(cs, CMD_SIZE)[lo..hi]
    decreases |cs|
  {
    hide Chunks, Returned;
    var front := cs[..|cs| - 1];
    assert cs == front + [cs[|cs| - 1]];
    ReturnedSnoc(front, cs[|cs| - 1], CMD_SIZE);
    if i < |front| {
      ReturnedSlice(front, i);
      assert front[..i] == cs[..i] && front[..i + 1] == cs[..i + 1];
    } else {
      assert cs[..i] == front && cs[..i + 1] == cs;
    }
  }

  /** Message `k` of a client is message `lo + k` of all the messages pulled. */
  lemma CallAt(cmd: PullSide, executed: seq<Cmd>, c: Client, i: nat, k: nat)
    requires Pulled(cmd, executed) && CallsSent(c)
    requires ReadAt(Conns(cmd.svc), i) <= c.cmd.sent
    requires PulledFrom(cmd, i) + k < PulledFrom(cmd, i + 1)
    ensures var n := PulledFrom(cmd, i) + k; k < |c.calls| && n < |executed| && executed[n] == c.calls[k]
  {
    hide Chunks, Returned, Tail, CmdBytes, BytesCmd;
    var cs, n := Conns(cmd.svc), PulledFrom(cmd, i) + k;
    MoreThere(cs, i);
    ReturnedSlice(cs, i);
    ChunkOfPrefix(BytesRead(cs[i]), c.cmd.sent);
    var ms := Chunks(BytesRead(cs[i]), CMD_SIZE);
    SliceHas(ms, cmd.got, PulledFrom(cmd, i), PulledFrom(cmd, i + 1), k);
    assert cmd.got[n] == CmdMsgs(c.calls)[k];
    CmdRoundTrip(c.calls[k]);
  }

  lemma MoreThere(cs: seq<Conn>, i: nat)
    requires forall c :: c in cs ==> c.taken <= |c.peer.incoming|
    requires forall c :: c in First(cs, i) + First(cs, i + 1) ==> c in cs
    requires |Returned(First(cs, i), CMD_SIZE)| != |Returned(First(cs, i + 1), CMD_SIZE)|
    ensures i < |cs|
  {
    assert cs[..|cs|] == cs;
  }

  lemma ChunkOfPrefix(read: seq<byte>, sent: seq<byte>)
    requires read <= sent
    ensures Chunks(read, CMD_SIZE) <= Chunks(sent, CMD_SIZE) && Chunks(read, RSP_SIZE) <= Chunks(sent, RSP_SIZE)
  {
    hide Chunks;
    assert sent[..|read|] == read;
    ReadIsPrefix(sent, |read|, CMD_SIZE);
    ReadIsPrefix(sent, |read|, RSP_SIZE);
  }

  lemma SliceHas<T>(xs: seq<T>, ys: seq<T>, lo: nat, hi: nat, k: nat)
    requires lo <= hi <= |ys| && xs == ys[lo..hi] && lo + k < hi
    ensures k < |xs| && xs[k] == ys[lo + k]
  {
  }

  /** Response `k` of a client is response `lo + k` of all the responses sent. */
  lemma ResultAt(rsp: Service, sent: seq<uint64>, c: Client, j: nat, k: nat)
    requires Pushed(rsp, sent) && ClientOk(c) && ResultsRead(c)
    requires BytesRead(c.rsp) <= SentAt(Conns(rsp), j) && k < |c.results|
    ensures SentTo(rsp, j) + k < SentTo(rsp, j + 1) <= |sent|
    ensures sent[SentTo(rsp, j) + k] == c.results[k]
  {
    hide Chunks, Received, Tail, RspBytes, BytesRsp, BytesRead;
    var rs, read := Conns(rsp), BytesRead(c.rsp);
    NoChunks();
    ClientReceivesSlice(rs, j, RSP_SIZE);
    ChunkOfPrefix(read, rs[j].sent);
    SliceAt(Chunks(read, RSP_SIZE), Received(rs, RSP_SIZE), SentTo(rsp, j), SentTo(rsp, j + 1), k);
    RspRoundTrip(sent[SentTo(rsp, j) + k]);
  }

  lemma SliceAt<T>(xs: seq<T>, ys: seq<T>, lo: nat, hi: nat, k: nat)
    requires lo <= hi <= |ys| && xs <= ys[lo..hi] && k < |xs|
    ensures lo + k < hi && xs[k] == ys[lo + k]
  {
  }

  lemma NoChunks()
    ensures Chunks([], RSP_SIZE) == []
  {
  }

  // ---- whose command a response answers ----

  /** Where a command comes from: number `place` of those of connection `conn`. */
  datatype Origin = Origin(conn: nat, place: nat)

  /** Of each command pulled, in order. */
  function Origins(cs: seq<Conn>): (os: seq<Origin>)
    requires ReadOk(cs)
  {
    if cs == [] then []
    else
      var last := cs[|cs| - 1];
      Origins(cs[..|cs| - 1]) + seq(|Chunks(BytesRead(last), CMD_SIZE)|, k requires 0 <= k => Origin(|cs| - 1, k))
  }

  lemma {:induction false} OriginsLength(cs: seq<Conn>)
    requires forall c :: c in cs ==> c.taken <= |c.peer.incoming|
    ensures |Origins(cs)| == |Returned(cs, CMD_SIZE)|
  {
    if cs != [] {
      OriginsLength(cs[..|cs| - 1]);
    }
  }

  /** The counts without the last connection. */
  lemma BeforeFront(cs: seq<Conn>, i: nat)
    requires ReadOk(cs) && cs != []
    ensures var front := cs[..|cs| - 1];
            && ReadOk(front) && Before(front, i) <= |Origins(front)|
            && (i < |cs| ==> Before(cs, i) == Before(front, i))
            && (i >= |cs| ==> Before(cs, i) == |Origins(cs)|)
            && (i >= |front| ==> Before(front, i) == |Origins(front)|)
  {
    hide Chunks, Returned, Origins;
    var front := cs[..|cs| - 1];
    OriginsLength(cs);
    OriginsLength(front);
    FirstIsAll(cs, i);
    FirstIsAll(front, i);
    if i < |front| {
      ReturnedSlice(front, i);
      assert cs[..i] == front[..i];
    }
  }

  /** Command `n` is number `k` of connection `i` exactly if there are `n - k` commands before that connection, and
      more than `n` with it. */
  lemma {:induction false} OriginIs(cs: seq<Conn>, n: nat, i: nat, k: nat)
    requires ReadOk(cs) && n < |Origins(cs)|
    ensures Origins(cs)[n] == Origin(i, k) <==> Before(cs, i) + k == n < Before(cs, i + 1)
    decreases |cs|
  {
    hide Before, Chunks;
    var front := cs[..|cs| - 1];
    BeforeFront(cs, i);
    BeforeFront(cs, i + 1);
    if n < |Origins(front)| {
      OriginIs(front, n, i, k);
    }
  }

  /** Response `k` of the client answers its own call `k`. */
  ghost predicate Own(cmd: PullSide, rsp: Service, i: nat, j: nat, k: nat)
    requires PullInv(cmd, CMD_SIZE)
  {
    var os, n := Origins(Conns(cmd.svc)), SentTo(rsp, j) + k;
    n < |os| && os[n] == Origin(i, k)
  }

  /** Command `lo + k` has been executed, and result `k` of the client is what a local map answers to it after the
      commands before it. */
  ghost predicate Local(executed: seq<Cmd>, isRead: Cmd -> bool, c: Client, lo: nat, k: nat)
    requires k < |c.results|
  {
    var n := lo + k;
    && n < |executed|
    && c.results[k] == if isRead(executed[n]) then LastWritten(executed[..n], executed[n].address, isRead) else 0
  }

  /** What a client of a memory server gets, whatever clients come and go: its result `k` is the response to the
      command executed after as many as there are responses sent to the clients before, and `k` more. That is its own
      call `k` exactly if the clients before got as many responses as they had commands executed, and its call `k`
      has been pulled. */
  lemma ClientIsServed(cmd: PullSide, rsp: Service, executed: seq<Cmd>, sent: seq<uint64>, isRead: Cmd -> bool,
                       c: Client, i: nat, j: nat, k: nat)
    requires Serving(cmd, rsp, executed, sent, isRead) && ClientInv(c) && Linked(cmd, rsp, c, i, j)
    requires k < |c.results|
    ensures Local(executed, isRead, c, SentTo(rsp, j), k) && SentTo(rsp, j) + k < |sent|
    ensures Own(cmd, rsp, i, j, k) <==>
            SentTo(rsp, j) == PulledFrom(cmd, i) && SentTo(rsp, j) + k < PulledFrom(cmd, i + 1)
    ensures Own(cmd, rsp, i, j, k) ==> k < |c.calls| && executed[SentTo(rsp, j) + k] == c.calls[k]
  {
    hide CallsSent, ResultsRead, Pulled, Pushed, PullInv, LastWritten, Responses, SentTo, PulledFrom, Own;
    ResultAt(rsp, sent, c, j, k);
    ResponsesAreLocal(executed, SentTo(rsp, j) + k, isRead);
    OwnAt(cmd, rsp, executed, c, i, j, k);
  }

  lemma OwnAt(cmd: PullSide, rsp: Service, executed: seq<Cmd>, c: Client, i: nat, j: nat, k: nat)
    requires Pulled(cmd, executed) && CallsSent(c) && SentTo(rsp, j) + k < |executed|
    requires ReadAt(Conns(cmd.svc), i) <= c.cmd.sent
    ensures PullInv(cmd, CMD_SIZE)
    ensures Own(cmd, rsp, i, j, k) <==>
            SentTo(rsp, j) == PulledFrom(cmd, i) && SentTo(rsp, j) + k < PulledFrom(cmd, i + 1)
    ensures Own(cmd, rsp, i, j, k) ==> k < |c.calls| && executed[SentTo(rsp, j) + k] == c.calls[k]
  {
    hide CallsSent, SentTo, Tail, Chunks, Before, Origins, Cmds;
    PulledCount(cmd, executed);
    OriginIs(Conns(cmd.svc), SentTo(rsp, j) + k, i, k);
    if Own(cmd, rsp, i, j, k) {
      CallAt(cmd, executed, c, i, k);
    }
  }

  lemma PulledCount(cmd: PullSide, executed: seq<Cmd>)
    requires Pulled(cmd, executed)
    ensures |Origins(Conns(cmd.svc))| == |executed|
  {
    hide Tail, Chunks, BytesCmd;
    OriginsLength(Conns(cmd.svc));
  }

  /** The clients before this one got as many responses as they had commands executed, and as many commands of this
      one as it has results have been pulled. */
  ghost predicate InStep(cmd: PullSide, rsp: Service, c: Client, i: nat, j: nat)
    requires PullInv(cmd, CMD_SIZE)
  {
    SentTo(rsp, j) == PulledFrom(cmd, i) && SentTo(rsp, j) + |c.results| <= PulledFrom(cmd, i + 1)
  }

  /** All results of a client that has any are the responses to its own calls if and only if it is in step; the
      last client whose commands are pulled is, if and only if the clients before it got as many responses as they
      had commands executed. */
  lemma OwnIff(cmd: PullSide, rsp: Service, executed: seq<Cmd>, sent: seq<uint64>, isRead: Cmd -> bool,
               c: Client, i: nat, j: nat)
    requires Serving(cmd, rsp, executed, sent, isRead) && ClientInv(c) && Linked(cmd, rsp, c, i, j)
    requires c.results != []
    ensures (forall k :: 0 <= k < |c.results| ==> Own(cmd, rsp, i, j, k)) <==> InStep(cmd, rsp, c, i, j)
    ensures i + 1 >= |Conns(cmd.svc)| ==> (InStep(cmd, rsp, c, i, j) <==> SentTo(rsp, j) == PulledFrom(cmd, i))
  {
    hide PullInv, Pushed, CallsSent, ResultsRead, LastWritten, Responses, SentTo, PulledFrom, Tail, Chunks, Own, Local, Cmds;
    var last := |c.results| - 1;
    forall k | 0 <= k < |c.results|
      ensures Own(cmd, rsp, i, j, k) <==>
              SentTo(rsp, j) == PulledFrom(cmd, i) && SentTo(rsp, j) + k < PulledFrom(cmd, i + 1)
    {
      ClientIsServed(cmd, rsp, executed, sent, isRead, c, i, j, k);
    }
    ClientIsServed(cmd, rsp, executed, sent, isRead, c, i, j, last);
    assert Own(cmd, rsp, i, j, last) ==> InStep(cmd, rsp, c, i, j);
    if i + 1 >= |Conns(cmd.svc)| {
      AllPulled(cmd, executed, i + 1);
    }
  }

  lemma AllPulled(cmd: PullSide, executed: seq<Cmd>, i: nat)
    requires Pulled(cmd, executed) && i >= |Conns(cmd.svc)|
    ensures PulledFrom(cmd, i) == |executed|
  {
    hide Chunks, Tail;
    assert First(Conns(cmd.svc), i) == Conns(cmd.svc);
  }

  /** The only client, if any, is the one at both ends of these connections. */
  ghost predicate Lone(cmd: PullSide, rsp: Service, c: Client)
    requires ClientOk(c) && PullInv(cmd, CMD_SIZE)
  {
    |Conns(cmd.svc)| <= 1 && |Conns(rsp)| <= 1 && Linked(cmd, rsp, c, 0, 0)
  }

  lemma LoneCounts(cmd: PullSide, rsp: Service, executed: seq<Cmd>, sent: seq<uint64>, c: Client)
    requires Pulled(cmd, executed) && Pushed(rsp, sent) && ClientOk(c) && Lone(cmd, rsp, c)
    ensures PulledFrom(cmd, 0) == 0 && PulledFrom(cmd, 1) == |executed|
    ensures SentTo(rsp, 0) == 0 && SentTo(rsp, 1) == |sent|
  {
    hide Chunks, Tail, BytesRead;
    var cs, rs := Conns(cmd.svc), Conns(rsp);
    assert First(cs, 0) == [] && First(rs, 0) == [];
    assert First(cs, 1) == cs && First(rs, 1) == rs;
  }

  /** One client alone: all commands executed are its own, the responses are those of a local map on its calls,
      and one command or response at most is under way. */
  lemma LoneClient(cmd: PullSide, rsp: Service, executed: seq<Cmd>, sent: seq<uint64>, isRead: Cmd -> bool, c: Client)
    requires Serving(cmd, rsp, executed, sent, isRead) && ClientInv(c) && Lone(cmd, rsp, c)
    ensures executed <= c.calls
    ensures |c.results| <= |sent| <= |executed| <= |c.calls| <= |c.results| + 1
    ensures forall k :: 0 <= k < |c.results| ==>
              c.results[k] == if isRead(c.calls[k]) then LastWritten(c.calls[..k], c.calls[k].address, isRead) else 0
  {
    hide Pulled, Pushed, CallsSent, ResultsRead, PulledFrom, SentTo, LastWritten, Responses, Tail, Chunks, Own;
    LoneCounts(cmd, rsp, executed, sent, c);
    var n := |executed|;
    forall k | 0 <= k < n ensures k < |c.calls| && executed[k] == c.calls[k] {
      CallAt(cmd, executed, c, 0, k);
    }
    assert n > 0 ==> n - 1 < |c.calls| by {
      if n > 0 {
        CallAt(cmd, executed, c, 0, n - 1);
      }
    }
    forall k | 0 <= k < |c.results|
      ensures k < |sent|
      ensures c.results[k] == if isRead(c.calls[k]) then LastWritten(c.calls[..k], c.calls[k].address, isRead) else 0
    {
      ClientIsServed(cmd, rsp, executed, sent, isRead, c, 0, 0, k);
      assert executed[..k] == c.calls[..k];
    }
    assert |c.results| > 0 ==> |c.results| - 1 < |sent| by {
      if |c.results| > 0 {
        ResultAt(rsp, sent, c, 0, |c.results| - 1);
      }
    }
  }

  lemma {:induction false} ChunksLength(bs: seq<byte>)
    ensures |bs| == RSP_SIZE * |Chunks(bs, RSP_SIZE)| + |Tail(bs, RSP_SIZE)|
  {
    if |bs| >= RSP_SIZE {
      ChunksLength(bs[RSP_SIZE..]);
      assert Chunks(bs, RSP_SIZE)[1..] == Chunks(bs[RSP_SIZE..], RSP_SIZE);
    }
  }

  /** When a response to a lone client is pending, that client has read everything sent to it so far. */
  lemma ResponseStreamIsEmpty(cmd: PullSide, rsp: Service, executed: seq<Cmd>, sent: seq<uint64>, isRead: Cmd -> bool,
                              c: Client)
    requires Serving(cmd, rsp, executed, sent, isRead) && ClientInv(c) && Lone(cmd, rsp, c)
    requires |executed| == |sent| + 1 && rsp.conn.Some?
    ensures rsp.conn.value.sent == BytesRead(c.rsp)
  {
    hide Responses, Chunks, Tail, PullInv, LastWritten, RspMsgs, CallsSent;
    LoneClient(cmd, rsp, executed, sent, isRead, c);
    var conn, read := rsp.conn.value, BytesRead(c.rsp);
    LoneConnection(rsp, sent);
    ChunksLength(conn.sent);
    ChunksLength(read);
    assert SentAt(Conns(rsp), 0) == conn.sent;
  }

  lemma LoneConnection(rsp: Service, sent: seq<uint64>)
    requires Pushed(rsp, sent) && rsp.conn.Some? && |Conns(rsp)| <= 1
    ensures Conns(rsp) == [rsp.conn.value]
    ensures |Chunks(rsp.conn.value.sent, RSP_SIZE)| == |sent| && Tail(rsp.conn.value.sent, RSP_SIZE) == []
  {
    hide Chunks, Tail;
    assert Conns(rsp)[..0] == [];
    assert Received(Conns(rsp), RSP_SIZE) == [] + Chunks(rsp.conn.value.sent, RSP_SIZE);
  }

  /** The kernel and a client that stays: the stream only refuses bytes when `capacity` bytes are unread, and what
      it starts it finishes. */
  ghost predicate Stays(conn: Conn, unread: int, capacity: nat)
  {
    && conn.at < |conn.peer.answers|
    && var a := conn.peer.answers[conn.at];
       && !a.Eof? && !a.Broken?
       && (a.Again? ==> unread >= capacity)
       && (a.Moved? ==> PaysFor(conn.peer.answers, conn.at, RSP_SIZE))
  }

  /** The client is the only one of a server that has a response for it. */
  ghost predicate StaysAlone(s: Server, c: Client)
  {
    ServerInv(s) && s.pc.Responding? && ClientInv(c) && PullInv(s.cmd, CMD_SIZE) && Lone(s.cmd, s.rsp, c)
  }

  /** As long as the only client stays connected, the assert on the response push fails exactly if a signal
      interrupts it, whatever the capacity of the stream. */
  lemma AssertWhileConnected(s: Server, c: Client, luck: Luck, conn: Conn, capacity: nat)
    requires StaysAlone(s, c)
    requires Connected(s.rsp, luck).conn == Some(conn)
    requires capacity > 0 && Stays(conn, |conn.sent| - c.rsp.taken, capacity)
    ensures Step(s, luck).pc.Aborted? <==> conn.peer.answers[conn.at].Interrupted?
  {
    hide Step, Lone, PullInv, Pushed, Pulled, Responses, CallsSent, ResultsRead, PaysFor, Tail;
    AssertFailsIff(s, luck);
    if s.rsp.conn.Some? {
      assert |s.sent + [s.pc.rsp]| == |s.executed|;
      ResponseStreamIsEmpty(s.cmd, s.rsp, s.executed, s.sent, IsRead, c);
    }
  }

  /** The software server has one connection for responses in all its life. */
  lemma OneResponseConnection(s: Server, c: Client, i: nat, j: nat)
    requires ServerInv(s) && ClientInv(c) && PullInv(s.cmd, CMD_SIZE) && Linked(s.cmd, s.rsp, c, i, j)
    requires c.results != []
    ensures j == 0 && SentTo(s.rsp, j) == 0
  {
    hide Chunks, PullInv, Pulled, Responses, ResultsRead, CallsSent, After;
    ResultAt(s.rsp, s.sent, c, j, 0);
    assert First(Conns(s.rsp), 0) == [];
    FirstIsAll(Conns(s.rsp), j);
    FirstIsAll(Conns(s.rsp), j + 1);
  }

  /** Over every run of the software server and of one of its clients, whatever clients come and go: each result of
      the client is what a local map answers to a command executed; a client has results only on the one response
      connection of the server, and they answer its own calls if and only if no client before it had a command
      executed. */
  lemma SwMemoryIsLocal(hasUnix: bool, es: seq<Event>, cmd: Peer, rsp: Peer, ces: seq<ClientEvent>, i: nat, j: nat)
    ensures var s, c := Run(hasUnix, es), ClientRuns(Connects(cmd, rsp), ces);
            && PullInv(s.cmd, CMD_SIZE)
            && (Linked(s.cmd, s.rsp, c, i, j) && c.results != [] ==>
                  && j == 0
                  && (forall k :: 0 <= k < |c.results| ==> Local(s.executed, IsRead, c, 0, k))
                  && ((forall k :: 0 <= k < |c.results| ==> Own(s.cmd, s.rsp, i, j, k)) <==>
                      PulledFrom(s.cmd, i) == 0 && |c.results| <= PulledFrom(s.cmd, i + 1)))
            && (Lone(s.cmd, s.rsp, c) ==> s.executed <= c.calls && |c.calls| <= |c.results| + 1)
  {
    hide Run, ClientRuns, Lone, PullInv, Pushed, Responses, CallsSent, ResultsRead, Linked, Local, Tail, PulledFrom, Own, SentTo;
    var s, c := Run(hasUnix, es), ClientRuns(Connects(cmd, rsp), ces);
    ServerRun(hasUnix, es);
    ClientRun(cmd, rsp, ces);
    if Linked(s.cmd, s.rsp, c, i, j) && c.results != [] {
      OneResponseConnection(s, c, i, j);
      forall k | 0 <= k < |c.results| ensures Local(s.executed, IsRead, c, 0, k) {
        ClientIsServed(s.cmd, s.rsp, s.executed, s.sent, IsRead, c, i, j, k);
      }
      OwnIff(s.cmd, s.rsp, s.executed, s.sent, IsRead, c, i, j);
    }
    if Lone(s.cmd, s.rsp, c) {
      LoneClient(s.cmd, s.rsp, s.executed, s.sent, IsRead, c);
    }
  }

  /** The results of the client are those of the operations from number `lo` on. */
  ghost predicate OpResults(c: Client, ops: seq<Op>, lo: nat)
  {
    lo + |c.results| <= |ops| && forall k :: 0 <= k < |c.results| ==> c.results[k] == OpResult(ops, lo + k)
  }

  /** The same, when the commands executed are those of operations. */
  lemma LocalResults(executed: seq<Cmd>, isRead: Cmd -> bool, c: Client, lo: nat, ops: seq<Op>)
    requires executed == CmdsOf(ops) && c.results != []
    requires forall k :: 0 <= k < |c.results| ==> Local(executed, isRead, c, lo, k)
    requires forall op :: op in ops ==> isRead(CmdOf(op)) == op.Read?
    ensures OpResults(c, ops, lo)
  {
    hide OpResult, LastWritten;
    assert Local(executed, isRead, c, lo, |c.results| - 1);
    forall k | 0 <= k < |c.results| ensures c.results[k] == OpResult(ops, lo + k) {
      assert Local(executed, isRead, c, lo, k);
      AnswerIsResult(ops, lo + k, isRead);
    }
  }

  /** A client alone whose calls are operations: each read returns the last value written by an earlier write of its
      own to an address equal modulo 256, else 0, and each write returns 0. */
  lemma LoneOperations(cmd: PullSide, rsp: Service, executed: seq<Cmd>, sent: seq<uint64>, isRead: Cmd -> bool,
                       c: Client, ops: seq<Op>)
    requires Serving(cmd, rsp, executed, sent, isRead) && ClientInv(c) && Lone(cmd, rsp, c)
    requires c.calls == CmdsOf(ops) && forall op :: op in ops ==> isRead(CmdOf(op)) == op.Read?
    ensures OpResults(c, ops, 0) && |ops| <= |c.results| + 1
  {
    hide Serving, ClientInv, Lone, LastWritten, OpResult, CmdsOf;
    LoneClient(cmd, rsp, executed, sent, isRead, c);
    forall k | 0 <= k < |c.results| ensures c.results[k] == OpResult(ops, k) {
      AnswerIsResult(ops, k, isRead);
    }
  }

  /** Over every run of the software server and of a client: of a client alone, the results are those of its
      operations; of any client, those of the operations executed from the first one on. */
  lemma SwOperations(hasUnix: bool, es: seq<Event>, cmd: Peer, rsp: Peer, ces: seq<ClientEvent>, i: nat, j: nat,
                     ops: seq<Op>)
    ensures var s, c := Run(hasUnix, es), ClientRuns(Connects(cmd, rsp), ces);
            && PullInv(s.cmd, CMD_SIZE)
            && (Lone(s.cmd, s.rsp, c) && c.calls == CmdsOf(ops) ==> OpResults(c, ops, 0))
            && (Linked(s.cmd, s.rsp, c, i, j) && s.executed == CmdsOf(ops) ==> OpResults(c, ops, 0))
  {
    hide Run, ClientRuns, Lone, PullInv, Pushed, Responses, CallsSent, ResultsRead, Linked, Local, Tail, OpResult, CmdsOf,
      Own, PulledFrom;
    var s, c := Run(hasUnix, es), ClientRuns(Connects(cmd, rsp), ces);
    ServerRun(hasUnix, es);
    ClientRun(cmd, rsp, ces);
    SwMemoryIsLocal(hasUnix, es, cmd, rsp, ces, i, j);
    forall op | op in ops ensures IsRead(CmdOf(op)) == op.Read? {
      BothTellReads(op);
    }
    if Lone(s.cmd, s.rsp, c) && c.calls == CmdsOf(ops) {
      LoneOperations(s.cmd, s.rsp, s.executed, s.sent, IsRead, c, ops);
    }
    if Linked(s.cmd, s.rsp, c, i, j) && s.executed == CmdsOf(ops) && c.results != [] {
      LocalResults(s.executed, IsRead, c, 0, ops);
    }
  }

  /** Such a client and server: a response is pending, the client is alone and stays, and a signal comes. */
  lemma LoneClientInterrupted(m: Cmd) returns (es: seq<Event>, s: Server, c: Client, conn: Conn)
    ensures s == Run(true, es) && Connected(s.rsp, ALL_WORKS).conn == Some(conn)
    ensures c.calls == [m] && StaysAlone(s, c) && Stays(conn, |conn.sent| - c.rsp.taken, 1)
    ensures conn.peer.answers[conn.at].Interrupted? && ServerOk(s) && Step(s, ALL_WORKS).pc.Aborted?
  {
    hide Run, Serving, CmdBytes, Chunks, Tail, Step, RspBytes, SendOn, PullInv;
    es := FirstResponse(m, [Moved(CMD_SIZE)], [Interrupted, Moved(RSP_SIZE)]);
    ServerRun(true, es);
    s := Run(true, es);
    ServingPulls(s);
    conn := Opened(Peer([Interrupted, Moved(RSP_SIZE)], []));
    Responds(s, conn);
    var cmd, rsp := Peer([Moved(CMD_SIZE)], []), Peer([], []);
    c := SendCmd(Connects(cmd, rsp), m);
    SendsAtOnce(Opened(cmd), m);
    FreshClient(cmd, rsp);
    SendKeeps(Connects(cmd, rsp), m);
    assert CmdBytes(m)[..CMD_SIZE] == CmdBytes(m) by {
      CmdRoundTrip(m);
    }
    assert [] + CmdBytes(m) == CmdBytes(m);
  }

  lemma ServingPulls(s: Server)
    requires ServerInv(s)
    ensures PullInv(s.cmd, CMD_SIZE)
  {
    hide PullInv, Pushed, Responses;
  }

  lemma SendsAtOnce(c: Conn, m: Cmd)
    requires c.at < |c.peer.answers| && c.peer.answers[c.at] == Moved(CMD_SIZE)
    ensures SendOn(c, CmdBytes(m)) == Xfer(Whole, CMD_SIZE, c.at + 1) && |CmdBytes(m)| == CMD_SIZE
  {
    hide CmdBytes;
    CmdRoundTrip(m);
    assert SendOn(c, CmdBytes(m)) == Transfer(CMD_SIZE, CMD_SIZE, 0, c.peer.answers, c.at + 1);
  }

  // ---- the program ----

  /** One call: a push, its assert, a pull, its assert. */
  function Called(c: Client, cmd: Cmd): (c': Client)
    requires ClientOk(c)
    ensures ClientOk(c')
  {
    ClientNext(ClientNext(c, Sends(cmd)), Receives)
  }

  /** sw_client.cpp on its connections to "rw_cmd" and "rw_rsp". */
  class SwClient {
    const rwCmd: ClientChannel
    const rwRsp: ClientChannel
    var status: Status
    ghost var calls: seq<Cmd>
    ghost var results: seq<uint64>

    ghost predicate Valid()
      reads this, rwCmd, rwRsp, rwCmd.sock, rwRsp.sock
    {
      rwCmd.sock != rwRsp.sock && rwRsp.sock.Valid()
    }

    ghost function ConnOf(s: Socket): Conn reads s { Conn(Peer(s.answers, s.incoming), s.at, s.taken, s.sent) }

    ghost function View(): (c: Client)
      requires Valid()
      reads this, rwCmd, rwRsp, rwCmd.sock, rwRsp.sock
      ensures ClientOk(c)
    {
      Client(ConnOf(rwCmd.sock), ConnOf(rwRsp.sock), status, calls, results)
    }

    /** Both connections are new. */
    constructor (cmd: Peer, rsp: Peer)
      ensures Valid() && View() == Connects(cmd, rsp) && fresh(rwCmd.sock) && fresh(rwRsp.sock)
    {
      var cmdSock := new Socket(cmd.answers, cmd.incoming);
      var rspSock := new Socket(rsp.answers, rsp.incoming);
      rwCmd := new ClientChannel(cmdSock);
      rwRsp := new ClientChannel(rspSock);
      status, calls, results := Ready, [], [];
    }

    method Push(cmd: Cmd)
      requires Valid() && status.Ready?
      modifies this`status, this`calls, rwCmd.sock
      ensures Valid() && View() == SendCmd(old(View()), cmd) && !status.Ready?
    {
      hide Transfer, CmdBytes;
      CmdRoundTrip(cmd);
      var r := rwCmd.PushCore(CmdBytes(cmd));
      status := if r then Waiting else Stopped;
      if r {
        calls := calls + [cmd];
      }
    }

    method Pull() returns (rsp: uint64)
      requires Valid() && status.Waiting?
      modifies this`status, this`results, rwRsp.sock
      ensures Valid() && View() == ReceiveRsp(old(View()))
      ensures status.Ready? ==> results == old(results) + [rsp]
    {
      hide Transfer, BytesRsp;
      var data := new byte[RSP_SIZE];
      var r := rwRsp.PullCore(data);
      status, rsp := if r then Ready else Stopped, 0;
      if r {
        rsp := BytesRsp(data[..]);
        results := results + [rsp];
      }
    }

    /** `stale` is what the third word of a read command holds. */
    method ReadServer(address: uint64, stale: uint64) returns (rdata: uint64)
      requires Valid() && status.Ready?
      modifies this, rwCmd.sock, rwRsp.sock
      ensures Valid() && View() == Called(old(View()), CmdOf(Read(address, stale)))
      ensures status.Ready? ==> results == old(results) + [rdata]
    {
      hide SendCmd, ReceiveRsp;
      rdata := 0;
      Push(Cmd(1, address, stale));
      if status.Waiting? {
        rdata := Pull();
      }
    }

    method WriteServer(address: uint64, wdata: uint64)
      requires Valid() && status.Ready?
      modifies this, rwCmd.sock, rwRsp.sock
      ensures Valid() && View() == Called(old(View()), CmdOf(Write(address, wdata)))
    {
      hide SendCmd, ReceiveRsp;
      Push(Cmd(0, address, wdata));
      if status.Waiting? {
        var rsp := Pull();
      }
    }
  }
}
