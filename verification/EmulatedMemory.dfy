/** The emulated read/write example: multisim_server_pull_then_push and the memory process of top.sv, over the host
    side of their two channels, with the same client. */
module EmulatedMemory {
  import opened Wrappers
  import opened Numbers
  import opened Messages
  import opened SocketIo
  import opened Host
  import opened Clients
  import opened Backoff
  import opened Memory
  import opened MemoryWire
  import opened RemoteMemory
  import opened MemoryClient
  import opened PullThenPush

  datatype Emu = Emu(loop: Loop, cmd: PullSide, rsp: Service)

  /** The module starts, a client connects, or the clock has an edge: the call of that edge, if any, comes back at
      it if `done`, and `junk` is what a pull without a message leaves in its output. */
  datatype EmuEvent =
    | ModuleStarts
    | Comes(toCmd: bool, viaUnix: bool, peer: Peer)
    | Posedge(done: bool, junk: Cmd, luck: Luck)

  function EmuReset(hasUnix: bool, cmd: Cmd, rsp: uint64): Emu
  {
    var none := Service(hasUnix, [], [], None, []);
    Emu(PullThenPush.Fresh(cmd, rsp), PullSide(none, []), none)
  }

  function OnPull(m: Emu, junk: Cmd, luck: Luck, k: Params): Emu
    requires ConnOk(m.cmd.svc)
  {
    var (svc, got) := Host.Pull(m.cmd.svc, CMD_SIZE, luck);
    match got
    case None => Emu(PullThenPush.Next(m.loop, PullThenPush.Edge(Empty(junk), false), k), m.cmd.(svc := svc), m.rsp)
    case Some(msg) =>
      Emu(PullThenPush.Next(m.loop, PullThenPush.Edge(Got(BytesCmd(msg)), false), k), PullSide(svc, m.cmd.got + [msg]), m.rsp)
  }

  function OnPush(m: Emu, luck: Luck, k: Params): Emu
  {
    var (svc, ok) := Host.Push(m.rsp, RspBytes(PushData(m.loop.p, m.loop.h.rsp)), luck);
    Emu(PullThenPush.Next(m.loop, PullThenPush.Edge(Pending, ok), k), m.cmd, svc)
  }

  function EmuNext(m: Emu, e: EmuEvent, k: Params): (m': Emu)
    requires ConnOk(m.cmd.svc)
    ensures ConnOk(m'.cmd.svc)
  {
    match e
    case ModuleStarts => m.(loop := PullThenPush.Next(m.loop, PullThenPush.Start, k))
    case Comes(toCmd, viaUnix, peer) =>
      if toCmd then m.(cmd := NextPull(m.cmd, Come(viaUnix, peer), CMD_SIZE))
      else m.(rsp := Clients.Joined(m.rsp, viaUnix, peer))
    case Posedge(done, junk, luck) =>
      if done && Pulls(m.loop.p, m.loop.h.cmdRdy) then OnPull(m, junk, luck, k)
      else if done && Pushes(m.loop.p, m.loop.h.rspVld) then OnPush(m, luck, k)
      else m.(loop := PullThenPush.Next(m.loop, PullThenPush.Edge(Pending, false), k))
  }

  function EmuRun(m: Emu, es: seq<EmuEvent>, k: Params): (m': Emu)
    requires ConnOk(m.cmd.svc)
    ensures ConnOk(m'.cmd.svc)
  {
    if es == [] then m else EmuNext(EmuRun(m, es[..|es| - 1], k), es[|es| - 1], k)
  }

  ghost predicate EmuInv(m: Emu)
  {
    && LoopInv(m.loop) && ConnOk(m.cmd.svc)
    && Serving(m.cmd, m.rsp, m.loop.pulled, m.loop.pushed, IsReadBit)
  }

  /** What an edge adds to the commands pulled and the responses pushed. */
  lemma EdgeHistory(l: Loop, pull: Pull<Cmd>, ok: bool, k: Params)
    requires LoopInv(l)
    ensures var l' := PullThenPush.Next(l, PullThenPush.Edge(pull, ok), k);
            && LoopInv(l')
            && l'.pulled == (if Pulls(l.p, l.h.cmdRdy) && pull.Got? then l.pulled + [pull.cmd] else l.pulled)
            && l'.pushed == (if Pushes(l.p, l.h.rspVld) && ok then l.pushed + [PushData(l.p, l.h.rsp)] else l.pushed)
    ensures Pulls(l.p, l.h.cmdRdy) ==> |l.pulled| == |l.pushed| && !Pushes(l.p, l.h.rspVld)
    ensures Pushes(l.p, l.h.rspVld) ==> l.pushed + [PushData(l.p, l.h.rsp)] == Responses(l.pulled, IsReadBit)
  {
    hide After, Responses, AfterPull;
    LoopInvStep(l, PullThenPush.Edge(pull, ok), k);
  }

  lemma EmuInvStep(m: Emu, e: EmuEvent, k: Params)
    requires EmuInv(m)
    ensures EmuInv(EmuNext(m, e, k))
  {
    hide LoopInv, RemoteMemory.Pulled, Pushed, Host.Pull, Host.Push, PullThenPush.Next, BytesCmd, Responses, Pulls, Pushes;
    match e
    case ModuleStarts =>
      StartHistory(m.loop, k);
    case Comes(toCmd, viaUnix, peer) =>
      ServingArrival(m.cmd, m.rsp, m.loop.pulled, m.loop.pushed, IsReadBit, viaUnix, peer);
    case Posedge(done, junk, luck) =>
      if done && Pulls(m.loop.p, m.loop.h.cmdRdy) {
        var got := Host.Pull(m.cmd.svc, CMD_SIZE, luck).1;
        EdgeHistory(m.loop, if got.Some? then Got(BytesCmd(got.value)) else Empty(junk), false, k);
        ServingPull(m.cmd, m.rsp, m.loop.pulled, m.loop.pushed, IsReadBit, luck);
      } else if done && Pushes(m.loop.p, m.loop.h.rspVld) {
        var r := PushData(m.loop.p, m.loop.h.rsp);
        EdgeHistory(m.loop, Pending, Host.Push(m.rsp, RspBytes(r), luck).1, k);
        ServingPush(m.cmd, m.rsp, m.loop.pulled, m.loop.pushed, IsReadBit, r, luck);
      } else {
        EdgeHistory(m.loop, Pending, false, k);
      }
  }

  lemma StartHistory(l: Loop, k: Params)
    requires LoopInv(l)
    ensures var l' := PullThenPush.Next(l, PullThenPush.Start, k); LoopInv(l') && l'.pulled == l.pulled && l'.pushed == l.pushed
  {
    LoopInvStep(l, PullThenPush.Start, k);
  }

  lemma ResetServes(hasUnix: bool, cmd: Cmd, rsp: uint64)
    ensures EmuInv(EmuReset(hasUnix, cmd, rsp))
  {
  }

  /** Over every run of the module, its memory, both channels and all clients, for every delay setting: the commands
      pulled are those that clients sent, and the responses that clients receive are theirs, in order. */
  lemma {:induction false} EmuServes(hasUnix: bool, cmd: Cmd, rsp: uint64, es: seq<EmuEvent>, k: Params)
    ensures EmuInv(EmuRun(EmuReset(hasUnix, cmd, rsp), es, k))
  {
    hide EmuInv, EmuNext;
    if es == [] {
      ResetServes(hasUnix, cmd, rsp);
    } else {
      EmuServes(hasUnix, cmd, rsp, es[..|es| - 1], k);
      EmuInvStep(EmuRun(EmuReset(hasUnix, cmd, rsp), es[..|es| - 1], k), es[|es| - 1], k);
    }
  }

  /** Over every run of the hardware side and of one of its clients, whatever clients come and go: each result of the
      client is what a local map answers to a command executed, and its results answer its own calls if and only if
      it is in step, that is, for the last client, if and only if the clients before it got as many responses as
      they had commands executed. */
  lemma EmulatedIsLocal(hasUnix: bool, reset: Cmd, rsp0: uint64, es: seq<EmuEvent>, k: Params,
                        cmd: Peer, rsp: Peer, ces: seq<ClientEvent>, i: nat, j: nat)
    ensures var m, c := EmuRun(EmuReset(hasUnix, reset, rsp0), es, k), ClientRuns(Connects(cmd, rsp), ces);
            && PullInv(m.cmd, CMD_SIZE)
            && (Linked(m.cmd, m.rsp, c, i, j) && c.results != [] ==>
                  && (forall n :: 0 <= n < |c.results| ==> Local(m.loop.pulled, IsReadBit, c, SentTo(m.rsp, j), n))
                  && ((forall n :: 0 <= n < |c.results| ==> Own(m.cmd, m.rsp, i, j, n)) <==> InStep(m.cmd, m.rsp, c, i, j))
                  && (i + 1 >= |Conns(m.cmd.svc)| ==>
                        (InStep(m.cmd, m.rsp, c, i, j) <==> SentTo(m.rsp, j) == PulledFrom(m.cmd, i))))
            && (Lone(m.cmd, m.rsp, c) ==> m.loop.pulled <= c.calls && |c.calls| <= |c.results| + 1)
  {
    hide EmuRun, ClientRuns, LoopInv, PullInv, Pushed, Responses, CallsSent, ResultsRead, Linked, Lone, Local, PulledFrom,
      Tail, SentTo, Own, InStep;
    var m, c := EmuRun(EmuReset(hasUnix, reset, rsp0), es, k), ClientRuns(Connects(cmd, rsp), ces);
    EmuServes(hasUnix, reset, rsp0, es, k);
    ClientRun(cmd, rsp, ces);
    if Linked(m.cmd, m.rsp, c, i, j) && c.results != [] {
      forall n | 0 <= n < |c.results| ensures Local(m.loop.pulled, IsReadBit, c, SentTo(m.rsp, j), n) {
        ClientIsServed(m.cmd, m.rsp, m.loop.pulled, m.loop.pushed, IsReadBit, c, i, j, n);
      }
      OwnIff(m.cmd, m.rsp, m.loop.pulled, m.loop.pushed, IsReadBit, c, i, j);
    }
    if Lone(m.cmd, m.rsp, c) {
      LoneClient(m.cmd, m.rsp, m.loop.pulled, m.loop.pushed, IsReadBit, c);
    }
  }

  /** The same in terms of operations: of a client alone, its own; of any client, those executed after as many as
      there are responses sent to the clients before it. */
  lemma EmulatedOperations(hasUnix: bool, reset: Cmd, rsp0: uint64, es: seq<EmuEvent>, k: Params,
                           cmd: Peer, rsp: Peer, ces: seq<ClientEvent>, i: nat, j: nat, ops: seq<Op>)
    ensures var m, c := EmuRun(EmuReset(hasUnix, reset, rsp0), es, k), ClientRuns(Connects(cmd, rsp), ces);
            && PullInv(m.cmd, CMD_SIZE)
            && (Lone(m.cmd, m.rsp, c) && c.calls == CmdsOf(ops) ==> OpResults(c, ops, 0))
            && (Linked(m.cmd, m.rsp, c, i, j) && m.loop.pulled == CmdsOf(ops) && c.results != [] ==>
                  OpResults(c, ops, SentTo(m.rsp, j)))
  {
    hide EmuRun, ClientRuns, Lone, LoopInv, PullInv, Pushed, Responses, CallsSent, ResultsRead, Linked, Local, Tail,
      OpResults, CmdsOf, SentTo, Own, InStep;
    var m, c := EmuRun(EmuReset(hasUnix, reset, rsp0), es, k), ClientRuns(Connects(cmd, rsp), ces);
    EmuServes(hasUnix, reset, rsp0, es, k);
    ClientRun(cmd, rsp, ces);
    EmulatedIsLocal(hasUnix, reset, rsp0, es, k, cmd, rsp, ces, i, j);
    forall op | op in ops ensures IsReadBit(CmdOf(op)) == op.Read? {
      BothTellReads(op);
    }
    if Lone(m.cmd, m.rsp, c) && c.calls == CmdsOf(ops) {
      LoneOperations(m.cmd, m.rsp, m.loop.pulled, m.loop.pushed, IsReadBit, c, ops);
    }
    if Linked(m.cmd, m.rsp, c, i, j) && m.loop.pulled == CmdsOf(ops) && c.results != [] {
      LocalResults(m.loop.pulled, IsReadBit, c, SentTo(m.rsp, j), ops);
    }
  }

  // ---- a run in which a client gets the response to another one's command ----

  lemma EmuExtend(m: Emu, es: seq<EmuEvent>, e: EmuEvent, k: Params) returns (es': seq<EmuEvent>)
    requires ConnOk(m.cmd.svc)
    ensures EmuRun(m, es', k) == EmuNext(EmuRun(m, es, k), e, k)
  {
    es' := es + [e];
    assert es'[..|es|] == es;
  }

  /** A write is pulled and executed. */
  lemma WriteExecuted(reset: Cmd, rsp0: uint64, w: Cmd, k: Params) returns (es: seq<EmuEvent>)
    requires !IsReadBit(w)
    ensures var m := EmuRun(EmuReset(true, reset, rsp0), es, k);
            && m.loop.p.pc.Await? && m.loop.h.rspVld && m.loop.h.rsp == 0 && m.loop.pulled == [w] && m.loop.pushed == []
            && m.cmd.svc == Service(true, [], [], Some(Conn(Peer([Moved(CMD_SIZE)], CmdBytes(w)), 1, CMD_SIZE, [])), [])
            && m.rsp == Service(true, [Peer([Broken], [])], [], None, [])
  {
    hide EmuRun, Host.Pull, Host.Push, CmdBytes, BytesCmd, AfterPull;
    CmdRoundTrip(w);
    var m0 := EmuReset(true, reset, rsp0);
    es := [];
    EmuNothing(m0, k);
    es := EmuExtend(m0, es, ModuleStarts, k);
    es := EmuExtend(m0, es, Comes(true, true, Peer([Moved(CMD_SIZE)], CmdBytes(w))), k);
    es := EmuExtend(m0, es, Comes(false, true, Peer([Broken], [])), k);
    PullAnswered(EmuRun(m0, es, k).cmd.svc, CMD_SIZE);
    assert CmdBytes(w)[0..CMD_SIZE] == CmdBytes(w);
    es := EmuExtend(m0, es, Posedge(true, reset, ALL_WORKS), k);
    es := EmuExtend(m0, es, Posedge(true, reset, ALL_WORKS), k);
  }

  /** And the client that sent it has left before the first push of its response. */
  lemma WriterLeaves(reset: Cmd, rsp0: uint64, w: Cmd, k: Params) returns (es: seq<EmuEvent>)
    requires !IsReadBit(w)
    ensures var m := EmuRun(EmuReset(true, reset, rsp0), es, k);
            && m.loop.p.pc == Sending(0) && m.loop.pulled == [w] && m.loop.pushed == []
            && m.cmd.svc == Service(true, [], [], Some(Conn(Peer([Moved(CMD_SIZE)], CmdBytes(w)), 1, CMD_SIZE, [])), [])
            && m.rsp == Service(true, [], [], None, [Conn(Peer([Broken], []), 1, 0, [])])
  {
    hide EmuRun, Host.Pull, Host.Push, CmdBytes, RspBytes, AfterPull, NextHw;
    var m0 := EmuReset(true, reset, rsp0);
    es := WriteExecuted(reset, rsp0, w, k);
    RspRoundTrip(0);
    PushAnswered(EmuRun(m0, es, k).rsp, RspBytes(0));
    es := EmuExtend(m0, es, Posedge(true, reset, ALL_WORKS), k);
  }

  lemma EmuNothing(m: Emu, k: Params)
    requires ConnOk(m.cmd.svc)
    ensures EmuRun(m, [], k) == m
  {
  }

  /** The next client connects to both channels. */
  lemma NextClientComes(reset: Cmd, rsp0: uint64, w: Cmd, incoming: seq<byte>, k: Params) returns (es: seq<EmuEvent>)
    requires !IsReadBit(w)
    ensures var m := EmuRun(EmuReset(true, reset, rsp0), es, k);
            && m.loop.p.pc == Sending(0) && m.loop.pulled == [w] && |Conns(m.cmd.svc)| == 1
            && m.rsp == Service(true, [Peer([Moved(RSP_SIZE)], [])], [], None, [Conn(Peer([Broken], []), 1, 0, [])])
  {
    hide EmuRun, PullThenPush.Next;
    var m0 := EmuReset(true, reset, rsp0);
    es := WriterLeaves(reset, rsp0, w, k);
    es := EmuExtend(m0, es, Comes(true, true, Peer([], incoming)), k);
    es := EmuExtend(m0, es, Comes(false, true, Peer([Moved(RSP_SIZE)], [])), k);
  }

  /** And is sent the response. */
  lemma NextClientGetsIt(reset: Cmd, rsp0: uint64, w: Cmd, incoming: seq<byte>, k: Params) returns (es: seq<EmuEvent>)
    requires !IsReadBit(w)
    ensures var m := EmuRun(EmuReset(true, reset, rsp0), es, k);
            && m.loop.pulled == [w] && |Conns(m.cmd.svc)| == 1
            && |Conns(m.rsp)| == 2 && Conns(m.rsp)[0].sent == [] && Conns(m.rsp)[1].sent == RspBytes(0)
  {
    hide EmuRun, Host.Pull, Host.Push, RspBytes, AfterPull, NextHw;
    var m0 := EmuReset(true, reset, rsp0);
    es := NextClientComes(reset, rsp0, w, incoming, k);
    RspRoundTrip(0);
    PushAnswered(EmuRun(m0, es, k).rsp, RspBytes(0));
    es := EmuExtend(m0, es, Posedge(true, reset, ALL_WORKS), k);
    assert [] + RspBytes(0) == RspBytes(0);
  }

  /** That client reads the address written: what it gets is the response to the write, before its own command has
      even been pulled. */
  lemma OthersResponse(reset: Cmd, rsp0: uint64, address: uint64, v: uint64, stale: uint64, k: Params)
    returns (es: seq<EmuEvent>, m: Emu, c: Client)
    ensures m == EmuRun(EmuReset(true, reset, rsp0), es, k) && EmuInv(m) && ClientInv(c) && PullInv(m.cmd, CMD_SIZE)
    ensures Linked(m.cmd, m.rsp, c, 1, 1) && !Own(m.cmd, m.rsp, 1, 1, 0)
    ensures c.calls == [Cmd(1, address, stale)] && c.results == [0]
    ensures m.loop.pulled == [Cmd(0, address, v)] && LastWritten(m.loop.pulled, address, IsReadBit) == v
  {
    hide EmuRun, EmuInv, ClientInv, Linked, PullInv, Own, CmdBytes, RspBytes, Conns;
    var w, read := Cmd(0, address, v), Cmd(1, address, stale);
    es := NextClientGetsIt(reset, rsp0, w, CmdBytes(read), k);
    m := EmuRun(EmuReset(true, reset, rsp0), es, k);
    EmuServes(true, reset, rsp0, es, k);
    c := ReadsOnce(read, 0);
    SecondClient(m, c, w);
  }

  /** A client that sends a command and gets a response. */
  lemma ReadsOnce(cmd: Cmd, rsp: uint64) returns (c: Client)
    ensures ClientInv(c) && c.calls == [cmd] && c.results == [rsp]
    ensures c.cmd.sent == CmdBytes(cmd) && BytesRead(c.rsp) == RspBytes(rsp)
  {
    hide CmdBytes, RspBytes, BytesRsp, Chunks, Tail;
    CmdRoundTrip(cmd);
    RspRoundTrip(rsp);
    var cp, rp := Peer([Moved(CMD_SIZE)], []), Peer([Moved(RSP_SIZE)], RspBytes(rsp));
    FreshClient(cp, rp);
    SendsAtOnce(Opened(cp), cmd);
    SendKeeps(Connects(cp, rp), cmd);
    var d := SendCmd(Connects(cp, rp), cmd);
    assert CmdBytes(cmd)[..CMD_SIZE] == CmdBytes(cmd) && [] + CmdBytes(cmd) == CmdBytes(cmd);
    ReadsAtOnce(Opened(rp));
    ReceiveKeeps(d);
    c := ReceiveRsp(d);
    assert RspBytes(rsp)[..RSP_SIZE] == RspBytes(rsp) == RspBytes(rsp)[0..RSP_SIZE];
  }

  lemma ReadsAtOnce(c: Conn)
    requires c.taken == 0 && |c.peer.incoming| == RSP_SIZE
    requires c.at < |c.peer.answers| && c.peer.answers[c.at] == Moved(RSP_SIZE)
    ensures ReadOn(c, RSP_SIZE) == Xfer(Whole, RSP_SIZE, c.at + 1)
  {
    assert ReadOn(c, RSP_SIZE) == Transfer(RSP_SIZE, RSP_SIZE, 0, c.peer.answers, c.at + 1);
  }

  lemma SecondClient(m: Emu, c: Client, w: Cmd)
    requires EmuInv(m) && ClientInv(c) && BytesRead(c.rsp) == RspBytes(0) && c.results == [0]
    requires m.loop.pulled == [w] && |Conns(m.cmd.svc)| == 1
    requires |Conns(m.rsp)| == 2 && Conns(m.rsp)[0].sent == [] && Conns(m.rsp)[1].sent == RspBytes(0)
    ensures PullInv(m.cmd, CMD_SIZE) && Linked(m.cmd, m.rsp, c, 1, 1) && !Own(m.cmd, m.rsp, 1, 1, 0)
  {
    hide LoopInv, PullInv, Pushed, Responses, CallsSent, ResultsRead, RspBytes, Tail, Chunks, Own, PulledFrom, SentTo;
    AllPulled(m.cmd, m.loop.pulled, 1);
    ClientIsServed(m.cmd, m.rsp, m.loop.pulled, m.loop.pushed, IsReadBit, c, 1, 1, 0);
  }
}
