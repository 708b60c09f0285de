/** The read/write example: sw_server.cpp and sw_client.cpp, each over the host side of its channels, and what
    a client of a memory server gets, whatever clients come and go. */
module RemoteMemory {
  import opened Wrappers
  import opened Numbers
  import opened Messages
  import opened SocketIo
  import opened Host
  import opened Clients
  import opened Memory
  import opened MemoryWire

  // ---- what a memory server does, in software or in hardware ----

  /** The commands pulled from all clients, in accept order. */
  ghost predicate Pulled(cmd: PullSide, executed: seq<Cmd>)
  {
    && PullInv(cmd, CMD_SIZE) && ConnOk(cmd.svc)
    && AllSized(cmd.got, CMD_SIZE) && executed == Cmds(cmd.got)
  }

  /** The responses that clients receive, in accept order. */
  ghost predicate Pushed(rsp: Service, sent: seq<uint64>)
  {
    && Received(Conns(rsp), RSP_SIZE) == RspMsgs(sent)
    && (rsp.conn.Some? ==> Tail(rsp.conn.value.sent, RSP_SIZE) == [])
  }

  /** The responses are those of the commands executed, but for one that may be pending. */
  ghost predicate Serving(cmd: PullSide, rsp: Service, executed: seq<Cmd>, sent: seq<uint64>, isRead: Cmd -> bool)
  {
    && Pulled(cmd, executed) && Pushed(rsp, sent)
    && sent <= Responses(executed, isRead) && |executed| <= |sent| + 1
  }

  // ---- sw_server.cpp ----

  /** Before the pull of "exit", before that of "rw_cmd", with a response to push, out of the loop, stopped by
      assert(r > 0). */
  datatype Pc = AtExit | AtCmd | Responding(rsp: uint64) | Exited | Aborted

  datatype Server = Server(exit: Service, cmd: PullSide, rsp: Service, mem: Mem, pc: Pc,
                           executed: seq<Cmd>, sent: seq<uint64>)

  datatype Channel = ExitChannel | CmdChannel | RspChannel

  /** A client connects to a channel, or the server makes its next call. */
  datatype Event = Arrives(ch: Channel, viaUnix: bool, peer: Peer) | Steps(luck: Luck)

  function Started(hasUnix: bool): Server
  {
    var none := Service(hasUnix, [], [], None, []);
    Server(none, PullSide(none, []), none, Cleared(), AtExit, [], [])
  }

  predicate ServerOk(s: Server) { ConnOk(s.exit) && ConnOk(s.cmd.svc) }

  function AfterExit(s: Server, luck: Luck): Server
    requires ServerOk(s)
  {
    var (svc, m) := Pull(s.exit, EXIT_SIZE, luck);
    s.(exit := svc, pc := if m.Some? then Exited else AtCmd)
  }

  function AfterCmd(s: Server, luck: Luck): Server
    requires ServerOk(s)
  {
    var (svc, m) := Pull(s.cmd.svc, CMD_SIZE, luck);
    match m
    case None => s.(cmd := s.cmd.(svc := svc), pc := AtExit)
    case Some(msg) =>
      var c := BytesCmd(msg);
      s.(cmd := PullSide(svc, s.cmd.got + [msg]), executed := s.executed + [c],
         mem := Store(s.mem, c, IsRead(c)), pc := Responding(Response(s.mem, c, IsRead(c))))
  }

  function AfterRsp(s: Server, rsp: uint64, luck: Luck): Server
  {
    var (svc, ok) := Push(s.rsp, RspBytes(rsp), luck);
    s.(rsp := svc, pc := if ok then AtExit else Aborted, sent := if ok then s.sent + [rsp] else s.sent)
  }

  function Step(s: Server, luck: Luck): (s': Server)
    requires ServerOk(s)
    ensures ServerOk(s')
  {
    match s.pc
    case AtExit => AfterExit(s, luck)
    case AtCmd => AfterCmd(s, luck)
    case Responding(rsp) => AfterRsp(s, rsp, luck)
    case _ => s
  }

  function Next(s: Server, e: Event): (s': Server)
    requires ServerOk(s)
    ensures ServerOk(s')
  {
    match e
    case Arrives(ch, viaUnix, peer) => (
      match ch
      case ExitChannel => s.(exit := Clients.Joined(s.exit, viaUnix, peer))
      case CmdChannel => s.(cmd := NextPull(s.cmd, Come(viaUnix, peer), CMD_SIZE))
      case RspChannel => s.(rsp := Clients.Joined(s.rsp, viaUnix, peer))
    )
    case Steps(luck) => Step(s, luck)
  }

  function Run(hasUnix: bool, es: seq<Event>): (s: Server)
    ensures ServerOk(s)
  {
    if es == [] then Started(hasUnix) else Next(Run(hasUnix, es[..|es| - 1]), es[|es| - 1])
  }

  /** The memory is that of the executed commands, and the response of the last one is sent or pending. Responses
      have one connection in all: a push that fails closes it and stops the server. */
  ghost predicate ServerInv(s: Server)
  {
    && |Conns(s.rsp)| <= 1 && (!s.pc.Aborted? ==> s.rsp.closed == [])
    && ServerOk(s) && Serving(s.cmd, s.rsp, s.executed, s.sent, IsRead)
    && s.mem == After(s.executed, IsRead)
    && (match s.pc
        case Responding(rsp) => s.sent + [rsp] == Responses(s.executed, IsRead)
        case Aborted => |s.sent| + 1 == |s.executed|
        case _ => s.sent == Responses(s.executed, IsRead))
  }

  lemma OneMore(cmds: seq<Cmd>, c: Cmd, isRead: Cmd -> bool)
    ensures After(cmds + [c], isRead) == Store(After(cmds, isRead), c, isRead(c))
    ensures Responses(cmds + [c], isRead) == Responses(cmds, isRead) + [Response(After(cmds, isRead), c, isRead(c))]
  {
    assert (cmds + [c])[..|cmds|] == cmds;
  }

  /** One pull of a command by a server with no response pending. */
  lemma ServingPull(cmd: PullSide, rsp: Service, executed: seq<Cmd>, sent: seq<uint64>, isRead: Cmd -> bool, luck: Luck)
    requires Serving(cmd, rsp, executed, sent, isRead) && |sent| == |executed|
    ensures var (svc, m) := Pull(cmd.svc, CMD_SIZE, luck);
            match m
            case None => Serving(PullSide(svc, cmd.got), rsp, executed, sent, isRead)
            case Some(msg) => Serving(PullSide(svc, cmd.got + [msg]), rsp, executed + [BytesCmd(msg)], sent, isRead)
  {
    hide PullInv, Received, Tail, After, BytesCmd, Pull, Response;
    PullInvStep(cmd, Call(luck), CMD_SIZE);
    var (svc, m) := Pull(cmd.svc, CMD_SIZE, luck);
    if m.Some? {
      OneMore(executed, BytesCmd(m.value), isRead);
      assert Cmds(cmd.got + [m.value]) == Cmds(cmd.got) + [BytesCmd(m.value)];
    }
  }

  /** One push of the pending response. */
  lemma ServingPush(cmd: PullSide, rsp: Service, executed: seq<Cmd>, sent: seq<uint64>, isRead: Cmd -> bool,
                    r: uint64, luck: Luck)
    requires Serving(cmd, rsp, executed, sent, isRead) && sent + [r] == Responses(executed, isRead)
    ensures var (svc, ok) := Push(rsp, RspBytes(r), luck);
            Serving(cmd, svc, executed, if ok then sent + [r] else sent, isRead)
  {
    hide PullInv, Received, Tail, Push, Responses, RspBytes;
    RspRoundTrip(r);
    PushOnce(rsp, RspBytes(r), luck, RSP_SIZE);
    assert RspMsgs(sent + [r]) == RspMsgs(sent) + [RspBytes(r)];
    assert RspMsgs(sent) + [] == RspMsgs(sent);
  }

  lemma ServingArrival(cmd: PullSide, rsp: Service, executed: seq<Cmd>, sent: seq<uint64>, isRead: Cmd -> bool,
                       viaUnix: bool, peer: Peer)
    requires Serving(cmd, rsp, executed, sent, isRead)
    ensures Serving(NextPull(cmd, Come(viaUnix, peer), CMD_SIZE), rsp, executed, sent, isRead)
    ensures Serving(cmd, Clients.Joined(rsp, viaUnix, peer), executed, sent, isRead)
  {
    hide PullInv, Received, Tail, Responses;
    PullInvStep(cmd, Come(viaUnix, peer), CMD_SIZE);
    assert Conns(Clients.Joined(rsp, viaUnix, peer)) == Conns(rsp);
  }

  /** A successful push closes nothing, and no push leaves more than one connection more. */
  lemma PushKeepsOrEnds(rsp: Service, r: uint64, luck: Luck)
    requires rsp.closed == []
    ensures var (svc, ok) := Push(rsp, RspBytes(r), luck); (ok ==> svc.closed == []) && |Conns(svc)| <= 1
  {
    hide RspBytes, Transfer;
  }

  lemma ServerInvStep(s: Server, e: Event)
    requires ServerInv(s)
    ensures ServerInv(Next(s, e))
  {
    hide Serving, Pull, Push, After, Responses, Response, Store, BytesCmd;
    match e
    case Arrives(ch, viaUnix, peer) =>
      ServingArrival(s.cmd, s.rsp, s.executed, s.sent, IsRead, viaUnix, peer);
    case Steps(luck) =>
      if s.pc.Responding? {
        PushKeepsOrEnds(s.rsp, s.pc.rsp, luck);
      }
      match s.pc {
        case AtCmd =>
          ServingPull(s.cmd, s.rsp, s.executed, s.sent, IsRead, luck);
          var m := Pull(s.cmd.svc, CMD_SIZE, luck).1;
          if m.Some? {
            OneMore(s.executed, BytesCmd(m.value), IsRead);
          }
        case Responding(rsp) =>
          ServingPush(s.cmd, s.rsp, s.executed, s.sent, IsRead, rsp, luck);
          assert |Responses(s.executed, IsRead)| == |s.executed|;
        case _ =>
      }
  }

  lemma StartsServing(hasUnix: bool)
    ensures ServerInv(Started(hasUnix))
  {
  }

  lemma {:induction false} ServerRun(hasUnix: bool, es: seq<Event>)
    ensures ServerInv(Run(hasUnix, es))
  {
    hide ServerInv, Next;
    if es == [] {
      StartsServing(hasUnix);
    } else {
      ServerRun(hasUnix, es[..|es| - 1]);
      ServerInvStep(Run(hasUnix, es[..|es| - 1]), es[|es| - 1]);
    }
  }

  /** The assert on the response push fails if and only if the server has no connection for responses and accepts
      none, or the one it has does not take 8 bytes. */
  lemma AssertFailsIff(s: Server, luck: Luck)
    requires ServerOk(s) && s.pc.Responding?
    ensures Step(s, luck).pc.Aborted? <==>
            !(Connected(s.rsp, luck).conn.Some? && Takes(Connected(s.rsp, luck).conn.value, RSP_SIZE))
  {
    hide Push, Takes, Connected, RspBytes;
    RspRoundTrip(s.pc.rsp);
    PushSucceedsIff(s.rsp, RspBytes(s.pc.rsp), luck);
  }

  /** A whole message on the exit channel, that the kernel gives at once, ends the loop, and nothing else does. */
  lemma ExitEndsLoop(s: Server, luck: Luck)
    requires ServerOk(s) && s.pc.AtExit?
    ensures Step(s, luck).pc.Exited? <==>
            && Connected(s.exit, luck).conn.Some? && Takes(Connected(s.exit, luck).conn.value, EXIT_SIZE)
            && var c := Connected(s.exit, luck).conn.value; c.taken + EXIT_SIZE <= |c.peer.incoming|
  {
    hide Pull, Takes, Connected;
    PullSucceedsIff(s.exit, EXIT_SIZE, luck);
  }

  // ---- two runs in which it fails with a client that stays ----

  lemma RunSnoc(hasUnix: bool, es: seq<Event>, e: Event)
    ensures Run(hasUnix, es + [e]) == Next(Run(hasUnix, es), e)
  {
    assert (es + [e])[..|es|] == es;
  }

  /** A pull from a connection whose kernel gives a whole message at once, or says that the client has left. */
  lemma PullAnswered(s: Service, size: nat)
    requires ConnOk(s) && size > 0 && Connected(s, ALL_WORKS).conn.Some?
    requires ConnOk(Connected(s, ALL_WORKS))
    ensures var t := Connected(s, ALL_WORKS);
            var c := t.conn.value;
            && (c.at < |c.peer.answers| && c.peer.answers[c.at] == Moved(size) && c.taken + size <= |c.peer.incoming| ==>
                  Pull(s, size, ALL_WORKS) ==
                  (t.(conn := Some(c.(at := c.at + 1, taken := c.taken + size))),
                   Some(c.peer.incoming[c.taken..c.taken + size])))
            && (c.at < |c.peer.answers| && c.peer.answers[c.at].Eof? ==>
                  Pull(s, size, ALL_WORKS) == (Close(t, c.(at := c.at + 1)), None))
  {
    var c := Connected(s, ALL_WORKS).conn.value;
    if c.at < |c.peer.answers| && c.peer.answers[c.at] == Moved(size) && c.taken + size <= |c.peer.incoming| {
      assert ReadOn(c, size) == Transfer(size, size, |c.peer.incoming| - c.taken - size, c.peer.answers, c.at + 1);
    }
  }

  /** The same for a push, which the kernel may also refuse or interrupt. */
  lemma PushAnswered(s: Service, msg: Msg)
    requires msg != [] && Connected(s, ALL_WORKS).conn.Some?
    ensures var t := Connected(s, ALL_WORKS);
            var c := t.conn.value;
            c.at < |c.peer.answers| ==>
              && (c.peer.answers[c.at] == Moved(|msg|) ==>
                    Push(s, msg, ALL_WORKS) == (t.(conn := Some(c.(at := c.at + 1, sent := c.sent + msg))), true))
              && (c.peer.answers[c.at].Broken? || c.peer.answers[c.at].Interrupted? ==>
                    Push(s, msg, ALL_WORKS) == (Close(t, c.(at := c.at + 1)), false))
  {
    var c := Connected(s, ALL_WORKS).conn.value;
    assert c.sent + msg[..0] == c.sent;
    if c.at < |c.peer.answers| && c.peer.answers[c.at] == Moved(|msg|) {
      assert SendOn(c, msg) == Transfer(|msg|, |msg|, 0, c.peer.answers, c.at + 1);
      assert msg[..|msg|] == msg;
    }
  }

  /** No client has asked the server to exit, and none can. */
  predicate NoExit(s: Server) { s.exit == Service(true, [], [], None, []) }

  lemma NothingToExit(s: Server)
    requires ServerOk(s) && s.pc.AtExit? && NoExit(s)
    ensures Step(s, ALL_WORKS) == s.(pc := AtCmd)
  {
  }

  /** The server pulls and executes the command that is there. */
  lemma Executes(s: Server, conn: Conn)
    requires ServerOk(s) && s.pc.AtCmd? && Connected(s.cmd.svc, ALL_WORKS).conn == Some(conn)
    requires conn.at < |conn.peer.answers| && conn.peer.answers[conn.at] == Moved(CMD_SIZE)
    requires conn.taken + CMD_SIZE <= |conn.peer.incoming|
    ensures var s' := Step(s, ALL_WORKS);
            && s'.pc.Responding? && s'.exit == s.exit && s'.rsp == s.rsp
            && s'.cmd.svc == Connected(s.cmd.svc, ALL_WORKS).(conn := Some(conn.(at := conn.at + 1, taken := conn.taken + CMD_SIZE)))
  {
    hide Pull, BytesCmd, Store, Response;
    PullAnswered(s.cmd.svc, CMD_SIZE);
  }

  /** The run up to the first response: a client connects to both channels and sends a command. */
  lemma FirstResponse(c: Cmd, cmdAnswers: seq<Answer>, rspAnswers: seq<Answer>) returns (es: seq<Event>)
    requires cmdAnswers != [] && cmdAnswers[0] == Moved(CMD_SIZE)
    ensures var s, cp := Run(true, es), Peer(cmdAnswers, CmdBytes(c));
            && s.pc.Responding? && NoExit(s)
            && s.cmd.svc == Service(true, [], [], Some(Conn(cp, 1, CMD_SIZE, [])), [])
            && s.rsp == Service(true, [Peer(rspAnswers, [])], [], None, [])
  {
    hide Run, Pull, CmdBytes;
    CmdRoundTrip(c);
    var cp, rp := Peer(cmdAnswers, CmdBytes(c)), Peer(rspAnswers, []);
    var e1, e2 := Arrives(CmdChannel, true, cp), Arrives(RspChannel, true, rp);
    EmptyRun(true);
    RunSnoc(true, [], e1);
    RunSnoc(true, [] + [e1], e2);
    RunSnoc(true, [] + [e1] + [e2], Steps(ALL_WORKS));
    RunSnoc(true, [] + [e1] + [e2] + [Steps(ALL_WORKS)], Steps(ALL_WORKS));
    var s := Run(true, [] + [e1] + [e2]);
    NothingToExit(s);
    Executes(s.(pc := AtCmd), Opened(cp));
    es := [] + [e1] + [e2] + [Steps(ALL_WORKS)] + [Steps(ALL_WORKS)];
  }

  /** The server pushes a response to a connection that refuses it, or takes it. */
  lemma Responds(s: Server, conn: Conn)
    requires ServerOk(s) && s.pc.Responding? && Connected(s.rsp, ALL_WORKS).conn == Some(conn)
    requires conn.at < |conn.peer.answers|
    ensures var s', t, a := Step(s, ALL_WORKS), Connected(s.rsp, ALL_WORKS), conn.peer.answers[conn.at];
            && s'.exit == s.exit && s'.cmd == s.cmd
            && (a.Broken? || a.Interrupted? ==> s'.pc.Aborted? && s'.rsp == Close(t, conn.(at := conn.at + 1)))
            && (a == Moved(RSP_SIZE) ==>
                  s'.pc.AtExit? && s'.rsp == t.(conn := Some(conn.(at := conn.at + 1, sent := conn.sent + RspBytes(s.pc.rsp)))))
  {
    hide Push, RspBytes, AcceptNew;
    RspRoundTrip(s.pc.rsp);
    PushAnswered(s.rsp, RspBytes(s.pc.rsp));
  }

  lemma EmptyRun(hasUnix: bool)
    ensures Run(hasUnix, []) == Started(hasUnix)
  {
  }

  /** A signal interrupts the push: the server stops, although the client is there and takes the response later. */
  lemma InterruptedPushAborts(c: Cmd) returns (es: seq<Event>)
    ensures var s := Run(true, es);
            && s.pc.Aborted? && |s.rsp.closed| == 1 && !HungUp(s.rsp.closed[0])
            && Takes(s.rsp.closed[0], RSP_SIZE)
  {
    hide Run, Step, RspBytes, Takes;
    es := FirstResponse(c, [Moved(CMD_SIZE)], [Interrupted, Moved(RSP_SIZE)]);
    var conn := Opened(Peer([Interrupted, Moved(RSP_SIZE)], []));
    Responds(Run(true, es), conn);
    es := Extend(es, Steps(ALL_WORKS));
    TakesAtOnce(conn.(at := 1));
  }

  lemma TakesAtOnce(c: Conn)
    requires c.at < |c.peer.answers| && c.peer.answers[c.at] == Moved(RSP_SIZE)
    ensures Takes(c, RSP_SIZE)
  {
    assert Offered(c.peer.answers, c.at, c.at + 1) == RSP_SIZE && NoHangUp(c.peer.answers, c.at, c.at + 1);
  }

  /** A client gets the response to its command and leaves: the server closes "rw_cmd", and keeps "rw_rsp". */
  lemma FirstClientLeaves(c: Cmd) returns (es: seq<Event>)
    ensures var s := Run(true, es);
            && s.pc.AtExit? && NoExit(s)
            && s.cmd.svc.hasUnix && s.cmd.svc.unix == [] && s.cmd.svc.conn.None?
            && s.rsp.unix == [] && s.rsp.conn.Some? && s.rsp.conn.value.at == 1
            && s.rsp.conn.value.peer.answers == [Moved(RSP_SIZE), Broken]
  {
    hide Run, Push, Pull, RspBytes, CmdBytes;
    es := FirstResponse(c, [Moved(CMD_SIZE), Eof], [Moved(RSP_SIZE), Broken]);
    Responds(Run(true, es), Opened(Peer([Moved(RSP_SIZE), Broken], [])));
    es := Extend(es, Steps(ALL_WORKS));
    NothingToExit(Run(true, es));
    es := Extend(es, Steps(ALL_WORKS));
    PullAnswered(Run(true, es).cmd.svc, CMD_SIZE);
    es := Extend(es, Steps(ALL_WORKS));
  }

  /** Then another one comes: the server only notices that the first one has left "rw_rsp" when it pushes the
      response to the second one, which stays, waits to be accepted and would take it. */
  lemma StaleConnectionAborts(c1: Cmd, c2: Cmd) returns (es: seq<Event>)
    ensures var s := Run(true, es);
            s.pc.Aborted? && s.rsp.conn.None? && |s.rsp.unix| == 1 && Takes(Opened(s.rsp.unix[0]), RSP_SIZE)
  {
    hide Run, Push, Pull, RspBytes, CmdBytes, Takes;
    es := FirstClientLeaves(c1);
    var cp, rp := Peer([Moved(CMD_SIZE)], CmdBytes(c2)), Peer([Moved(RSP_SIZE)], []);
    es := Extend(es, Arrives(CmdChannel, true, cp));
    es := Extend(es, Arrives(RspChannel, true, rp));
    NothingToExit(Run(true, es));
    es := Extend(es, Steps(ALL_WORKS));
    CmdRoundTrip(c2);
    Executes(Run(true, es), Opened(cp));
    es := Extend(es, Steps(ALL_WORKS));
    Responds(Run(true, es), Run(true, es).rsp.conn.value);
    es := Extend(es, Steps(ALL_WORKS));
    TakesAtOnce(Opened(rp));
  }

  lemma Extend(es: seq<Event>, e: Event) returns (es': seq<Event>)
    ensures Run(true, es') == Next(Run(true, es), e)
  {
    RunSnoc(true, es, e);
    es' := es + [e];
  }

  // ---- the program ----

  /** One turn of the loop: the luck of its three calls. */
  datatype Turn = Turn(exit: Luck, cmd: Luck, rsp: Luck)

  function OneTurn(s: Server, t: Turn): (s': Server)
    requires ServerOk(s)
    ensures ServerOk(s')
  {
    var s1 := if s.pc.AtExit? then Step(s, t.exit) else s;
    var s2 := if s1.pc.AtCmd? then Step(s1, t.cmd) else s1;
    if s2.pc.Responding? then Step(s2, t.rsp) else s2
  }

  function Turns(s: Server, ts: seq<Turn>): (s': Server)
    requires ServerOk(s)
    ensures ServerOk(s')
  {
    if ts == [] then s else OneTurn(Turns(s, ts[..|ts| - 1]), ts[|ts| - 1])
  }

  lemma StepGoes(s: Server, luck: Luck)
    requires ServerOk(s)
    ensures var pc := Step(s, luck).pc;
            && (s.pc.AtExit? ==> pc.Exited? || pc.AtCmd?)
            && (s.pc.AtCmd? ==> pc.AtExit? || pc.Responding?)
            && (s.pc.Responding? ==> pc.AtExit? || pc.Aborted?)
  {
  }

  lemma TurnGoes(s: Server, t: Turn)
    requires ServerOk(s) && s.pc.AtExit?
    ensures var pc := OneTurn(s, t).pc; pc.AtExit? || pc.Exited? || pc.Aborted?
  {
    hide Step;
    StepGoes(s, t.exit);
    var s1 := Step(s, t.exit);
    StepGoes(s1, t.cmd);
    StepGoes(Step(s1, t.cmd), t.rsp);
  }

  lemma TurnsGoOn(s: Server, ts: seq<Turn>, n: nat)
    requires ServerOk(s)
    ensures Turns(s, ts[..0]) == s
    ensures n < |ts| ==> Turns(s, ts[..n + 1]) == OneTurn(Turns(s, ts[..n]), ts[n])
  {
    if n < |ts| {
      assert ts[..n + 1][..n] == ts[..n];
    }
  }

  lemma TurnsEnd(s: Server, ts: seq<Turn>, n: nat)
    requires ServerOk(s) && n <= |ts|
    requires n < |ts| ==> Turns(s, ts[..n]).pc.Exited? || Turns(s, ts[..n]).pc.Aborted?
    ensures Turns(s, ts) == Turns(s, ts[..n])
  {
    hide Turns;
    if n < |ts| {
      TurnsStop(s, ts, n);
    } else {
      assert ts[..n] == ts;
    }
  }

  /** Out of the loop nothing happens. */
  lemma {:induction false} TurnsStop(s: Server, ts: seq<Turn>, n: nat)
    requires ServerOk(s) && n <= |ts|
    requires Turns(s, ts[..n]).pc.Exited? || Turns(s, ts[..n]).pc.Aborted?
    ensures Turns(s, ts) == Turns(s, ts[..n])
    decreases |ts|
  {
    hide Step;
    if n == |ts| {
      assert ts[..n] == ts;
    } else {
      assert ts[..|ts| - 1][..n] == ts[..n];
      TurnsStop(s, ts[..|ts| - 1], n);
    }
  }

  /** sw_server.cpp over its three channels; `pc` is AtExit but after the loop or a failed assert. */
  class SwServer {
    const exit: ServerChannel
    const rwCmd: ServerChannel
    const rwRsp: ServerChannel
    const mem: array<uint64>
    var pc: Pc
    ghost var got: seq<Msg>
    ghost var executed: seq<Cmd>
    ghost var sent: seq<uint64>

    ghost predicate Valid()
      reads this, mem, exit, rwCmd, rwRsp, exit.sock, rwCmd.sock, rwRsp.sock
    {
      && mem.Length == 256
      && exit != rwCmd && exit != rwRsp && rwCmd != rwRsp
      && (exit.sock == null || (exit.sock != rwCmd.sock && exit.sock != rwRsp.sock))
      && (rwCmd.sock == null || rwCmd.sock != rwRsp.sock)
      && exit.Valid() && rwCmd.Valid() && rwRsp.Valid()
    }

    ghost function View(): (s: Server)
      requires Valid()
      reads this, mem, exit, rwCmd, rwRsp, exit.sock, rwCmd.sock, rwRsp.sock
      ensures ServerOk(s)
    {
      Server(exit.View(), PullSide(rwCmd.View(), got), rwRsp.View(), mem[..], pc, executed, sent)
    }

    constructor (hasUnix: bool)
      ensures Valid() && View() == Started(hasUnix)
      ensures fresh(mem) && fresh(exit) && fresh(rwCmd) && fresh(rwRsp)
    {
      exit := new ServerChannel(hasUnix);
      rwCmd := new ServerChannel(hasUnix);
      rwRsp := new ServerChannel(hasUnix);
      mem := new uint64[256](i => 0);
      pc, got, executed, sent := AtExit, [], [], [];
      new;
      assert mem[..] == Cleared();
    }

    /** Check for an exit command. */
    method PollExit(k: Luck)
      requires Valid() && pc.AtExit?
      modifies this`pc, exit, exit.sock
      ensures Valid() && (exit.sock == old(exit.sock) || exit.sock == null || fresh(exit.sock))
      ensures View() == AfterExit(old(View()), k)
    {
      hide Pull;
      var exitData := new byte[EXIT_SIZE];
      var r := exit.PullCore(exitData, k);
      pc := if r then Exited else AtCmd;
    }

    /** Check for a read/write command and process it: the response to send, if there is one. */
    method PollCmd(k: Luck)
      requires Valid() && pc.AtCmd?
      modifies this`pc, this`got, this`executed, mem, rwCmd, rwCmd.sock
      ensures Valid() && (rwCmd.sock == old(rwCmd.sock) || rwCmd.sock == null || fresh(rwCmd.sock))
      ensures View() == AfterCmd(old(View()), k)
    {
      hide Pull, BytesCmd, Store, Response;
      var rwCmdData := new byte[CMD_SIZE];
      var r := rwCmd.PullCore(rwCmdData, k);
      if !r {
        pc := AtExit;
        return;
      }
      var c := BytesCmd(rwCmdData[..]);
      var rsp := Process(c);
      pc, got, executed := Responding(rsp), got + [rwCmdData[..]], executed + [c];
    }

    method Process(c: Cmd) returns (rsp: uint64)
      requires mem.Length == 256
      modifies mem
      ensures mem[..] == Store(old(mem[..]), c, IsRead(c)) && rsp == Response(old(mem[..]), c, IsRead(c))
    {
      rsp := 0;
      if c.rwb != 0 {
        rsp := mem[c.address % 256];
      } else {
        mem[c.address % 256] := c.wdata;
      }
    }

    /** Send the response, and the assert on its result. */
    method Respond(rsp: uint64, k: Luck)
      requires Valid() && pc == Responding(rsp)
      modifies this`pc, this`sent, rwRsp, rwRsp.sock
      ensures Valid() && (rwRsp.sock == old(rwRsp.sock) || rwRsp.sock == null || fresh(rwRsp.sock))
      ensures View() == AfterRsp(old(View()), rsp, k)
    {
      hide Push, RspBytes;
      var r := SendRsp(rsp, k);
      pc := if r then AtExit else Aborted;
      if r {
        sent := sent + [rsp];
      }
    }

    method SendRsp(rsp: uint64, k: Luck) returns (r: bool)
      requires Valid()
      modifies rwRsp, rwRsp.sock
      ensures Valid() && (rwRsp.sock == old(rwRsp.sock) || rwRsp.sock == null || fresh(rwRsp.sock))
      ensures (rwRsp.View(), r) == Push(old(rwRsp.View()), RspBytes(rsp), k)
      ensures exit.View() == old(exit.View()) && rwCmd.View() == old(rwCmd.View())
    {
      hide Push, RspBytes;
      r := rwRsp.PushCore(RspBytes(rsp), k);
    }

    /** The second and third call of a turn. */
    method Command(t: Turn)
      requires Valid() && pc.AtCmd?
      modifies this, mem, rwCmd, rwRsp, rwCmd.sock, rwRsp.sock
      ensures Valid() && View() == OneTurn(old(View()), t)
      ensures rwCmd.sock == old(rwCmd.sock) || rwCmd.sock == null || fresh(rwCmd.sock)
      ensures rwRsp.sock == old(rwRsp.sock) || rwRsp.sock == null || fresh(rwRsp.sock)
    {
      hide AfterExit, AfterCmd, AfterRsp;
      StepGoes(View(), t.cmd);
      PollCmd(t.cmd);
      match pc
      case Responding(rsp) => Respond(rsp, t.rsp);
      case _ =>
    }

    method Turn(t: Turn)
      requires Valid() && pc.AtExit?
      modifies this, mem, exit, rwCmd, rwRsp, exit.sock, rwCmd.sock, rwRsp.sock
      ensures Valid() && View() == OneTurn(old(View()), t)
      ensures exit.sock == old(exit.sock) || exit.sock == null || fresh(exit.sock)
      ensures rwCmd.sock == old(rwCmd.sock) || rwCmd.sock == null || fresh(rwCmd.sock)
      ensures rwRsp.sock == old(rwRsp.sock) || rwRsp.sock == null || fresh(rwRsp.sock)
    {
      hide AfterExit, AfterCmd, AfterRsp;
      StepGoes(View(), t.exit);
      PollExit(t.exit);
      if pc.AtCmd? {
        Command(t);
      }
    }

    /** The loop, for as many turns as it takes. */
    method Loop(ts: seq<Turn>)
      requires Valid() && pc.AtExit?
      modifies this, mem, exit, rwCmd, rwRsp, exit.sock, rwCmd.sock, rwRsp.sock
      ensures Valid() && View() == Turns(old(View()), ts)
    {
      hide OneTurn, Turns;
      ghost var s := View();
      TurnsGoOn(s, ts, 0);
      var i := 0;
      while i < |ts| && pc.AtExit?
        invariant i <= |ts| && Valid() && View() == Turns(s, ts[..i])
        invariant pc.AtExit? || pc.Exited? || pc.Aborted?
        invariant exit.sock == old(exit.sock) || exit.sock == null || fresh(exit.sock)
        invariant rwCmd.sock == old(rwCmd.sock) || rwCmd.sock == null || fresh(rwCmd.sock)
        invariant rwRsp.sock == old(rwRsp.sock) || rwRsp.sock == null || fresh(rwRsp.sock)
      {
        TurnGoes(View(), ts[i]);
        TurnsGoOn(s, ts, i);
        Turn(ts[i]);
        i := i + 1;
      }
      TurnsEnd(s, ts, i);
    }
  }
}
