/** multisim_server_pull_then_push.sv closed by the hardware memory of
    example/emu_server/sw_client/read_write/src/top.sv, edge by edge. */
module PullThenPush {
  import opened Backoff
  import opened Memory
  import opened Numbers

  /** Where the process waits for its next edge: before a pull, in `repeat (dpi_delay)` with `n` edges
      left, in a pull call that takes cycles (ZeBu), after a successful pull, for a response, and with
      a response to push. */
  datatype Pc<R> = Idle | Delay(n: nat) | Calling | Pulled | Await | Sending(q: R)

  datatype Ptp<C, R> = Ptp(started: bool, pullVld: bool, pullData: C, pushRdy: bool, pace: Pace, pc: Pc<R>)

  /** What a pull call gives at an edge: not finished, no message (with `junk` in its output), or one. */
  datatype Pull<C> = Pending | Empty(junk: C) | Got(cmd: C)

  predicate Triggers<C, R>(p: Ptp<C, R>, pullRdy: bool)
  {
    p.pc.Idle? && p.started && (!p.pullVld || pullRdy)
  }

  /** This edge has a pull call under way. */
  predicate Pulls<C, R>(p: Ptp<C, R>, pullRdy: bool)
  {
    (Triggers(p, pullRdy) && p.pace.delay <= 0) || (p.pc.Delay? && p.pc.n <= 1) || p.pc.Calling?
  }

  function PullEdge<C, R>(p: Ptp<C, R>, pull: Pull<C>, k: Params): Ptp<C, R>
  {
    match pull
    case Pending => p.(pc := Calling)
    case Empty(junk) => p.(pullVld := false, pullData := junk, pace := AfterPull(p.pace, false, k), pc := Idle)
    case Got(cmd) => p.(pullVld := true, pullData := cmd, pace := AfterPull(p.pace, true, k), pc := Pulled)
  }

  /** This edge tries to push. */
  predicate Pushes<C, R>(p: Ptp<C, R>, pushVld: bool) { (p.pc.Await? && pushVld) || p.pc.Sending? }

  function PushData<C, R>(p: Ptp<C, R>, pushData: R): R { if p.pc.Sending? then p.pc.q else pushData }

  function NextPtp<C, R>(p: Ptp<C, R>, pullRdy: bool, pushVld: bool, pushData: R,
                         pull: Pull<C>, pushOk: bool, k: Params): Ptp<C, R>
  {
    if Pulls(p, pullRdy) then PullEdge(p, pull, k)
    else
      match p.pc
      case Idle => if Triggers(p, pullRdy) then p.(pullVld := false, pc := Delay(p.pace.delay)) else p
      case Delay(n) => p.(pullVld := false, pc := Delay(n - 1))
      case Calling => p
      case Pulled => p.(pullVld := false, pushRdy := true, pc := Await)
      case Await =>
        if !pushVld then p
        else p.(pushRdy := false, pc := if pushOk then Idle else Sending(pushData))
      case Sending(q) => if pushOk then p.(pc := Idle) else p
  }

  // ---- the memory process of top.sv ----

  /** At the top of the process, waiting for a command, waiting for its response to be taken. */
  datatype TopPc = Top | WaitCmd | WaitRsp

  datatype Hw = Hw(mem: Mem, cmdRdy: bool, rspVld: bool, rsp: uint64, pc: TopPc)

  function NextHw(h: Hw, cmdVld: bool, cmd: Cmd, rspRdy: bool): Hw
  {
    match h.pc
    case Top => h.(cmdRdy := true, pc := WaitCmd)
    case WaitCmd =>
      if !cmdVld then h
      else Hw(Store(h.mem, cmd, IsReadBit(cmd)), false, true, Response(h.mem, cmd, IsReadBit(cmd)), WaitRsp)
    case WaitRsp => if !rspRdy then h else h.(rspVld := false, pc := Top)
  }

  // ---- the closed loop ----

  /** Both processes, the commands pulled and the responses pushed. */
  datatype Loop = Loop(p: Ptp<Cmd, uint64>, h: Hw, pulled: seq<Cmd>, pushed: seq<uint64>)

  datatype Event = Start | Edge(pull: Pull<Cmd>, pushOk: bool)

  function Fresh(cmd: Cmd, rsp: uint64): Loop
  {
    Loop(Ptp(false, false, cmd, false, Pace(0, 0), Idle), Hw(Cleared(), false, false, rsp, Top), [], [])
  }

  function Next(l: Loop, e: Event, k: Params): Loop
  {
    match e
    case Start => l.(p := l.p.(started := true))
    case Edge(pull, pushOk) =>
      Loop(NextPtp(l.p, l.h.cmdRdy, l.h.rspVld, l.h.rsp, pull, pushOk, k),
           NextHw(l.h, l.p.pullVld, l.p.pullData, l.p.pushRdy),
           if Pulls(l.p, l.h.cmdRdy) && pull.Got? then l.pulled + [pull.cmd] else l.pulled,
           if Pushes(l.p, l.h.rspVld) && pushOk then l.pushed + [PushData(l.p, l.h.rsp)] else l.pushed)
  }

  function Run(l: Loop, es: seq<Event>, k: Params): Loop
  {
    if es == [] then l else Next(Run(l, es[..|es| - 1], k), es[|es| - 1], k)
  }

  function Done(l: Loop): seq<Cmd>
  {
    if l.p.pc.Pulled? && l.pulled != [] then l.pulled[..|l.pulled| - 1] else l.pulled
  }

  /** Commands executed, responses pushed, and where the last command is. */
  ghost predicate LoopInv(l: Loop)
  {
    && (!l.p.started ==> l.p.pc.Idle?)
    && l.h.mem == After(Done(l), IsReadBit)
    && (match l.p.pc
        case Pulled =>
          && l.p.pullVld && !l.p.pushRdy && l.h.pc == WaitCmd && !l.h.rspVld
          && l.pulled == Done(l) + [l.p.pullData] && l.pushed == Responses(Done(l), IsReadBit)
        case Await =>
          && !l.p.pullVld && l.p.pushRdy && l.h.pc == WaitRsp && l.h.rspVld
          && l.pulled != [] && l.pushed + [l.h.rsp] == Responses(l.pulled, IsReadBit)
        case Sending(q) =>
          && !l.p.pullVld && !l.p.pushRdy && l.h.pc != WaitRsp && !l.h.rspVld
          && l.pulled != [] && l.pushed + [q] == Responses(l.pulled, IsReadBit)
        case _ =>
          && !l.p.pullVld && !l.p.pushRdy && l.h.pc != WaitRsp && !l.h.rspVld
          && l.pushed == Responses(l.pulled, IsReadBit))
  }

  lemma ResponseTo(cmds: seq<Cmd>, c: Cmd)
    ensures After(cmds + [c], IsReadBit) == Store(After(cmds, IsReadBit), c, IsReadBit(c))
    ensures Responses(cmds + [c], IsReadBit) ==
            Responses(cmds, IsReadBit) + [Response(After(cmds, IsReadBit), c, IsReadBit(c))]
  {
    assert (cmds + [c])[..|cmds|] == cmds;
  }

  lemma LoopInvStep(l: Loop, e: Event, k: Params)
    requires LoopInv(l)
    ensures LoopInv(Next(l, e, k))
  {
    hide After, Responses, AfterPull;
    if e.Edge? {
      if Pulls(l.p, l.h.cmdRdy) && e.pull.Got? {
        assert Done(Next(l, e, k)) == l.pulled;
      } else if l.p.pc.Pulled? {
        ResponseTo(Done(l), l.p.pullData);
      }
    }
  }

  /** For every delay setting and every run: the memory is waiting for a command in the one cycle in
      which valid is high, whatever pull_data_rdy says; pulls and accepted response pushes alternate;
      response `k` is the result of command `k`, however often pushes fail. */
  lemma {:induction false} NoCommandLost(cmd: Cmd, rsp: uint64, es: seq<Event>, k: Params)
    ensures var l := Run(Fresh(cmd, rsp), es, k);
            && LoopInv(l)
            && (l.p.pullVld ==> l.h.pc == WaitCmd && forall p, b :: !Next(l, Edge(p, b), k).p.pullVld)
            && |l.pushed| <= |l.pulled| <= |l.pushed| + 1
            && l.pushed == Responses(l.pulled, IsReadBit)[..|l.pushed|]
  {
    hide After, Responses, AfterPull;
    if es == [] {
      EmptyMemory();
    } else {
      NoCommandLost(cmd, rsp, es[..|es| - 1], k);
      LoopInvStep(Run(Fresh(cmd, rsp), es[..|es| - 1], k), es[|es| - 1], k);
    }
    var l := Run(Fresh(cmd, rsp), es, k);
    if l.p.pc.Pulled? {
      ResponseTo(Done(l), l.p.pullData);
    }
  }

  lemma EmptyMemory()
    ensures After([], IsReadBit) == Cleared() && Responses([], IsReadBit) == []
  {
  }

  // ---- the pace of a run ----

  /** A pull call ends at this edge. */
  predicate EndsPull(l: Loop, e: Event) { e.Edge? && Pulls(l.p, l.h.cmdRdy) && !e.pull.Pending? }

  /** The results of the pulls of a run, in order. */
  function PullResults(l: Loop, es: seq<Event>, k: Params): seq<bool>
  {
    if es == [] then []
    else
      var front, e := es[..|es| - 1], es[|es| - 1];
      PullResults(l, front, k) + (if EndsPull(Run(l, front, k), e) then [e.pull.Got?] else [])
  }

  lemma PaceStep(l: Loop, e: Event, k: Params)
    ensures Next(l, e, k).p.pace == if EndsPull(l, e) then AfterPull(l.p.pace, e.pull.Got?, k) else l.p.pace
  {
    hide AfterPull;
  }

  /** Delay and grace count are those of the backoff after the pulls of the run: for sane parameters the delay is that
      of the ramp after as many empty pulls as there are since the last message, and between 0 and INACTIVE. */
  lemma {:induction false} PaceOfRun(cmd: Cmd, rsp: uint64, es: seq<Event>, k: Params)
    ensures Run(Fresh(cmd, rsp), es, k).p.pace == AfterPulls(PullResults(Fresh(cmd, rsp), es, k), k)
    ensures Sane(k) ==>
              var oks, delay := PullResults(Fresh(cmd, rsp), es, k), Run(Fresh(cmd, rsp), es, k).p.pace.delay;
              0 <= delay <= k.inactive && delay == DelayAfter(true in oks, SinceMessage(oks), k)
  {
    hide AfterPull, Next, Pulls;
    var l := Fresh(cmd, rsp);
    if es != [] {
      var front, e := es[..|es| - 1], es[|es| - 1];
      PaceOfRun(cmd, rsp, front, k);
      PaceStep(Run(l, front, k), e, k);
      var oks := PullResults(l, front, k);
      if EndsPull(Run(l, front, k), e) {
        assert (oks + [e.pull.Got?])[..|oks|] == oks;
      } else {
        assert oks + [] == oks;
      }
    }
    if Sane(k) {
      DelayIsBounded(PullResults(l, es, k), k);
      DelayAfterPulls(PullResults(l, es, k), k);
    }
  }

  /** `n` edges of a process that gets nothing from its pull or push. */
  function Quiet<C, R>(p: Ptp<C, R>, pullRdy: bool, pushData: R, n: nat, k: Params): Ptp<C, R>
  {
    if n == 0 then p else NextPtp(Quiet(p, pullRdy, pushData, n - 1, k), pullRdy, false, pushData, Pending, false, k)
  }

  /** An idle process pulls after exactly `dpi_delay` edges, at once if that is not positive. */
  lemma {:induction false} PullAfterDelay<C(!new), R(!new)>(p: Ptp<C, R>, pullRdy: bool, pushData: R, n: nat, k: Params)
    requires p.pc.Idle? && p.started && !p.pullVld && (n == 0 || n <= p.pace.delay)
    ensures Pulls(Quiet(p, pullRdy, pushData, n, k), pullRdy) <==> (n == 0 && p.pace.delay <= 0) || n == p.pace.delay
    ensures n > 0 ==> Quiet(p, pullRdy, pushData, n, k) == p.(pc := Delay(p.pace.delay - n + 1))
  {
    if n > 0 {
      PullAfterDelay(p, pullRdy, pushData, n - 1, k);
    }
  }

  // ---- a command pulled can be answered ----

  /** Edges from a pull that returns a command to the push of its response. */
  function EdgesToPush(l: Loop): nat
  {
    match l.p.pc
    case Pulled => 2
    case Await => 1
    case Sending(_) => 1
    case _ => 0
  }

  /** An edge without a failing call brings the command under way closer to its response, and the second one after
      its pull pushes that. */
  lemma AnswerStep(l: Loop, k: Params)
    requires LoopInv(l) && |l.pushed| < |l.pulled|
    ensures var l' := Next(l, Edge(Pending, true), k);
            && LoopInv(l') && l'.pulled == l.pulled && EdgesToPush(l) > 0
            && (EdgesToPush(l) == 1 ==> l'.pushed == Responses(l.pulled, IsReadBit) && l'.p.pc.Idle?)
            && (EdgesToPush(l) == 2 ==> EdgesToPush(l') == 1 && l'.pushed == l.pushed)
  {
    hide After, Responses, AfterPull;
    LoopInvStep(l, Edge(Pending, true), k);
  }

  /** From every state with a command under way, at most two edges answer it, if their push succeeds. */
  lemma CommandCanBeAnswered(l: Loop, k: Params) returns (es: seq<Event>)
    requires LoopInv(l) && |l.pushed| < |l.pulled|
    ensures |es| <= 2 && Run(l, es, k).pushed == Responses(l.pulled, IsReadBit) && Run(l, es, k).p.pc.Idle?
  {
    hide LoopInv, Responses, Next;
    var e := Edge(Pending, true);
    AnswerStep(l, k);
    var l' := Next(l, e, k);
    assert [e][..0] == [];
    assert Run(l, [e], k) == l';
    if EdgesToPush(l) == 1 {
      es := [e];
    } else {
      CountsOf(l);
      AnswerStep(l', k);
      assert [e, e][..1] == [e];
      es := [e, e];
    }
  }

  lemma CountsOf(l: Loop)
    requires LoopInv(l)
    ensures |l.pushed| <= |l.pulled| && EdgesToPush(l) <= 2
  {
    hide After, Responses;
    assert |Responses(l.pulled, IsReadBit)| == |l.pulled|;
    assert |Responses(Done(l), IsReadBit)| == |Done(l)|;
  }

  /** A pull that returns a command starts its way. */
  lemma PullStarts(l: Loop, cmd: Cmd, k: Params)
    requires LoopInv(l) && Pulls(l.p, l.h.cmdRdy)
    ensures var l' := Next(l, Edge(Got(cmd), false), k);
            LoopInv(l') && l'.pulled == l.pulled + [cmd] && |l'.pushed| < |l'.pulled| && l'.p.pullVld && l'.p.pullData == cmd
  {
    hide After, Responses, AfterPull;
    LoopInvStep(l, Edge(Got(cmd), false), k);
  }

  // ---- the processes as objects ----

  class PullThenPushModule<C(0), R(0)> {
    const k: Params
    var serverHasStarted: bool
    var pullDataVld: bool
    var pullData: C
    var pushDataRdy: bool
    var dpiDelay: int
    var gracePulls: int
    var pc: Pc<R>

    ghost function View(): Ptp<C, R>
      reads this
    {
      Ptp(serverHasStarted, pullDataVld, pullData, pushDataRdy, Pace(dpiDelay, gracePulls), pc)
    }

    constructor (k: Params, c: C)
      ensures this.k == k && View() == Ptp(false, false, c, false, Pace(0, 0), Idle)
    {
      this.k := k;
      serverHasStarted, pullDataVld, pullData, pushDataRdy := false, false, c, false;
      dpiDelay, gracePulls, pc := 0, 0, Idle;
    }

    /** `pull` and `pushOk` are what the DPI calls of this edge return, if it makes them. */
    method Posedge(pullDataRdy: bool, pushDataVld: bool, pushData: R, pull: Pull<C>, pushOk: bool)
      modifies this
      ensures View() == NextPtp(old(View()), pullDataRdy, pushDataVld, pushData, pull, pushOk, k)
    {
      match pc
      case Idle =>
        if serverHasStarted && (!pullDataVld || pullDataRdy) {
          if dpiDelay > 0 {
            pullDataVld, pc := false, Delay(dpiDelay);
          } else {
            FinishPull(pull);
          }
        }
      case Delay(n) =>
        if n > 1 {
          pullDataVld, pc := false, Delay(n - 1);
        } else {
          FinishPull(pull);
        }
      case Calling =>
        FinishPull(pull);
      case Pulled =>
        pullDataVld, pushDataRdy, pc := false, true, Await;
      case Await =>
        if pushDataVld {
          pushDataRdy := false;
          pc := if pushOk then Idle else Sending(pushData);
        }
      case Sending(q) =>
        if pushOk {
          pc := Idle;
        }
    }

    method FinishPull(pull: Pull<C>)
      modifies this
      ensures View() == PullEdge(old(View()), pull, k)
    {
      match pull
      case Pending =>
        pc := Calling;
      case Empty(junk) =>
        pullDataVld, pullData, pc := false, junk, Idle;
        dpiDelay, gracePulls := GetInactiveDpiDelay(dpiDelay, gracePulls, k), Int32(gracePulls - 1);
      case Got(cmd) =>
        pullDataVld, pullData, pc := true, cmd, Pulled;
        dpiDelay, gracePulls := k.active, k.grace;
    }
  }

  class TopMemory {
    const mem: array<uint64>
    var rwCmdRdy: bool
    var rwRspVld: bool
    var rwRsp: uint64
    var pc: TopPc

    ghost predicate Valid() { mem.Length == 256 }

    ghost function View(): Hw
      requires Valid()
      reads this, mem
    {
      Hw(mem[..], rwCmdRdy, rwRspVld, rwRsp, pc)
    }

    constructor ()
      ensures Valid() && fresh(mem) && View() == Hw(Cleared(), false, false, 0, Top)
    {
      mem := new uint64[256](i => 0);
      rwCmdRdy, rwRspVld, rwRsp, pc := false, false, 0, Top;
      new;
      assert mem[..] == Cleared();
    }

    method Posedge(rwCmdVld: bool, rwCmd: Cmd, rwRspRdy: bool)
      requires Valid()
      modifies this, mem
      ensures View() == NextHw(old(View()), rwCmdVld, rwCmd, rwRspRdy)
    {
      match pc
      case Top =>
        rwCmdRdy, pc := true, WaitCmd;
      case WaitCmd =>
        if rwCmdVld {
          rwCmdRdy := false;
          if rwCmd.rwb % 2 == 1 {
            rwRsp := mem[rwCmd.address % 256];
          } else {
            mem[rwCmd.address % 256] := rwCmd.wdata;
            rwRsp := 0;
          }
          rwRspVld, pc := true, WaitRsp;
        }
      case WaitRsp =>
        if rwRspRdy {
          rwRspVld, pc := false, Top;
        }
    }
  }
}
