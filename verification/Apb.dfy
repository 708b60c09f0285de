/** The APB bridge: multisim_client_apb_push.sv and multisim_server_apb_pull.sv, each around the state
    machine of multisim_apb_fsm.sv, over one request channel and one response channel, between a
    manager and a subordinate that follow the AMBA APB protocol. */
module Apb {
  import opened Wrappers
  import opened ReadyValid

  /** `UNKNOWN` is the state register before its first edge: the default branch. */
  datatype ApbState = IDLE | SETUP | ACCESS | UNKNOWN

  /** next_state_logic */
  function StateOf(prev: ApbState, psel: bool, preadyD1: bool): ApbState
  {
    match prev
    case IDLE => if psel then SETUP else IDLE
    case SETUP => ACCESS
    case ACCESS => if preadyD1 then (if psel then SETUP else IDLE) else ACCESS
    case UNKNOWN => IDLE
  }

  /** The request_vld latch of the client side. */
  function RequestVld(state: ApbState, requestRdy: bool, latched: bool): bool
  {
    match state
    case IDLE => false
    case SETUP => true
    case ACCESS => if requestRdy then false else latched
    case UNKNOWN => false
  }

  predicate RequestRdy(state: ApbState) { state == IDLE || state == SETUP }

  /** A manager: no transfer, the setup phase of one, its access phase. */
  datatype Manager<Q> = NoTransfer | Setup(req: Q) | Access(req: Q)

  predicate Psel<Q>(m: Manager<Q>) { !m.NoTransfer? }

  /** The transfer ends at an edge of its access phase with pready; the next one may follow at once. */
  function NextManager<Q>(m: Manager<Q>, pready: bool, next: Option<Q>): Manager<Q>
  {
    match m
    case Setup(req) => Access(req)
    case Access(req) => if !pready then m else (match next case None => NoTransfer case Some(q) => Setup(q))
    case NoTransfer => match next case None => NoTransfer case Some(q) => Setup(q)
  }

  /** The transfer that begins when the manager goes from one state to another. */
  function Begins<Q>(mgr: Manager<Q>, next: Manager<Q>): seq<Q>
  {
    if next.Setup? && !mgr.Setup? then [next.req] else []
  }

  /** The client side: its manager, its state machine and the latch. */
  datatype Client<Q> = Client(mgr: Manager<Q>, prev: ApbState, preadyD1: bool, requestVld: bool)

  /** The server side: its state machine and the request it presents. */
  datatype Server<Q> = Server(prev: ApbState, preadyD1: bool, req: Q)

  /** Both sides, the request channel and the response channel with the modules at their ends, and the
      history: transfers begun by the manager, requests presented to the subordinate together with its
      responses, responses given to the manager. */
  datatype Bridge<Q, R> = Bridge(c: Client<Q>, s: Server<Q>, req: Link<Q>, rsp: Link<R>,
                                 begun: seq<Q>, served: seq<Q>, answers: seq<R>, completed: seq<R>)

  function ClientState<Q, R>(b: Bridge<Q, R>): ApbState { StateOf(b.c.prev, Psel(b.c.mgr), b.c.preadyD1) }

  function ServerState<Q, R>(b: Bridge<Q, R>): ApbState { StateOf(b.s.prev, b.req.pull.vld, b.s.preadyD1) }

  function SettleClient<Q, R>(b: Bridge<Q, R>): Bridge<Q, R>
  {
    b.(c := b.c.(requestVld := RequestVld(ClientState(b), b.req.push.rdy, b.c.requestVld)))
  }

  /** The client side after an edge that found `pready`, with request_rdy then at `rdy`. */
  function AfterClient<Q>(c: Client<Q>, pready: bool, next: Option<Q>, rdy: bool): Client<Q>
  {
    var mgr, state := NextManager(c.mgr, pready, next), StateOf(c.prev, Psel(c.mgr), c.preadyD1);
    Client(mgr, state, pready, RequestVld(StateOf(state, Psel(mgr), pready), rdy, c.requestVld))
  }

  /** The server side after an edge that found request_vld at `vld` and `pready`, with request_vld and request_data
      then at `vldNow` and `data`: o_apb_m_req follows the pulled request in SETUP and holds it afterwards. */
  function AfterServer<Q>(s: Server<Q>, vld: bool, pready: bool, vldNow: bool, data: Q): Server<Q>
  {
    var state := StateOf(s.prev, vld, s.preadyD1);
    Server(state, pready, if StateOf(state, vldNow, pready) == SETUP then data else s.req)
  }

  /** The modules of a side start, or its clock has an edge: `next` is the transfer the manager begins if
      it can, `pready` and `rsp` are the subordinate's outputs, the rest is what DPI calls return. Or the
      connection of a channel goes down, or has gone down and loses what it carries. */
  datatype Event<Q, R> =
    | StartClient
    | StartServer
    | ClientEdge(next: Option<Q>, ok: bool, got: Return<R>)
    | ServerEdge(pready: bool, rsp: R, ok: bool, req: Return<Q>)
    | HangsUp(onRequests: bool)
    | Loses(onRequests: bool)

  function InitialBridge<Q, R>(q: Q, r: R): Bridge<Q, R>
  {
    Bridge(Client(NoTransfer, UNKNOWN, false, false), Server(UNKNOWN, false, q), Fresh(q, q), Fresh(r, r),
           [], [], [], [])
  }

  function RequestData<Q, R>(b: Bridge<Q, R>): Q { if b.c.mgr.NoTransfer? then b.req.push.q else b.c.mgr.req }

  /** The delay parameters of the pull modules: that of responses, and that of requests. */
  datatype BothDelays = BothDelays(client: Delays, server: Delays)

  function OnClient<Q, R>(b: Bridge<Q, R>, next: Option<Q>, ok: bool, got: Return<R>, d: BothDelays): Bridge<Q, R>
  {
    var pready := b.rsp.pull.vld;
    var req := ReadyValid.Next(b.req, PushEdge(b.c.requestVld, RequestData(b), ok), d.client);
    b.(c := AfterClient(b.c, pready, next, req.push.rdy),
       req := req,
       rsp := ReadyValid.Next(b.rsp, PullEdge(true, got), d.client),
       completed := if b.c.mgr.Access? && pready then b.completed + [b.rsp.pull.data] else b.completed,
       begun := b.begun + Begins(b.c.mgr, NextManager(b.c.mgr, pready, next)))
  }

  function OnServer<Q, R>(b: Bridge<Q, R>, pready: bool, rsp: R, ok: bool, got: Return<Q>, d: BothDelays): Bridge<Q, R>
  {
    var responseVld := pready && ServerState(b) == ACCESS;
    var req := ReadyValid.Next(b.req, PullEdge(RequestRdy(ServerState(b)), got), d.server);
    b.(s := AfterServer(b.s, b.req.pull.vld, pready, req.pull.vld, req.pull.data),
       req := req,
       rsp := ReadyValid.Next(b.rsp, PushEdge(responseVld, rsp, ok), d.server),
       served := if responseVld then b.served + [b.s.req] else b.served,
       answers := if responseVld then b.answers + [rsp] else b.answers)
  }

  function Next<Q, R>(b: Bridge<Q, R>, e: Event<Q, R>, d: BothDelays): Bridge<Q, R>
  {
    match e
    case StartClient =>
      SettleClient(b.(req := ReadyValid.Next(b.req, StartPush, d.client), rsp := ReadyValid.Next(b.rsp, StartPull, d.client)))
    case StartServer =>
      b.(req := ReadyValid.Next(b.req, StartPull, d.client), rsp := ReadyValid.Next(b.rsp, StartPush, d.client))
    case HangsUp(onRequests) =>
      if onRequests then b.(req := ReadyValid.Next(b.req, HangUp, d.client))
      else b.(rsp := ReadyValid.Next(b.rsp, HangUp, d.client))
    case Loses(onRequests) =>
      if onRequests then b.(req := ReadyValid.Next(b.req, Lose, d.client))
      else b.(rsp := ReadyValid.Next(b.rsp, Lose, d.client))
    case ClientEdge(next, ok, got) => OnClient(b, next, ok, got, d)
    case ServerEdge(pready, rsp, ok, req) => OnServer(b, pready, rsp, ok, req, d)
  }

  function Run<Q, R>(b: Bridge<Q, R>, es: seq<Event<Q, R>>, d: BothDelays): Bridge<Q, R>
  {
    if es == [] then b else Next(Run(b, es[..|es| - 1], d), es[|es| - 1], d)
  }

  // ---- where the one transfer under way is ----

  datatype Place = Nowhere | ClientUnsent | OnRequests | Pulled | AtSubordinate | ServerUnsent | OnResponses | AtManager

  function Where<Q, R>(b: Bridge<Q, R>): Place
  {
    if Unsent(b.req.push) != [] then ClientUnsent
    else if b.req.fifo != [] then OnRequests
    else if b.req.pull.vld then Pulled
    else if ServerState(b) == ACCESS then AtSubordinate
    else if Unsent(b.rsp.push) != [] then ServerUnsent
    else if b.rsp.fifo != [] then OnResponses
    else if b.rsp.pull.vld then AtManager
    else Nowhere
  }

  ghost predicate ClientOk<Q(!new), R(!new)>(b: Bridge<Q, R>)
  {
    && (b.req.push.rdy ==> b.req.push.started) && b.rsp.pull.started == b.req.push.started
    && PullOk(b.rsp.pull)
    && (ClientState(b) == SETUP ==> b.c.requestVld)
    && (ClientState(b) == IDLE ==> !b.c.requestVld)
    && (ClientState(b) == ACCESS && b.req.push.rdy ==> !b.c.requestVld)
    && (Unsent(b.req.push) != [] ==> ClientState(b) == ACCESS && b.c.requestVld)
  }

  ghost predicate ServerOk<Q(!new), R(!new)>(b: Bridge<Q, R>)
  {
    && (b.rsp.push.rdy ==> b.rsp.push.started) && b.req.pull.started == b.rsp.push.started
    && PullOk(b.req.pull)
    && (b.req.pull.vld ==> ServerState(b) == SETUP && b.s.req == b.req.pull.data)
    && (!b.req.pull.vld ==> ServerState(b) == IDLE || (ServerState(b) == ACCESS && b.rsp.push.rdy))
  }

  /** At most one place holds the transfer, and the words there are the manager's request `q` or the
      subordinate's last answer. */
  ghost predicate Placed<Q(!new), R(!new)>(b: Bridge<Q, R>, q: Option<Q>)
  {
    var w := Where(b);
    && (w.ClientUnsent? ==> q == Some(b.req.push.q)) && (!w.ClientUnsent? ==> Unsent(b.req.push) == [])
    && (w.OnRequests? ==> q.Some? && b.req.fifo == [q.value]) && (!w.OnRequests? ==> b.req.fifo == [])
    && (w.Pulled? ==> q == Some(b.req.pull.data)) && (!w.Pulled? ==> !b.req.pull.vld)
    && (w.AtSubordinate? ==> q == Some(b.s.req)) && (!w.AtSubordinate? ==> ServerState(b) != ACCESS)
    && (w.ServerUnsent? ==> b.answers != [] && b.rsp.push.q == b.answers[|b.answers| - 1])
    && (!w.ServerUnsent? ==> Unsent(b.rsp.push) == [])
    && (w.OnResponses? ==> b.answers != [] && b.rsp.fifo == [b.answers[|b.answers| - 1]])
    && (!w.OnResponses? ==> b.rsp.fifo == [])
    && (w.AtManager? ==> b.answers != [] && b.rsp.pull.data == b.answers[|b.answers| - 1])
    && (!w.AtManager? ==> !b.rsp.pull.vld)
  }

  /** The request has been accepted, and not been answered yet. */
  predicate Requesting(w: Place) { w.ClientUnsent? || w.OnRequests? || w.Pulled? || w.AtSubordinate? }

  ghost predicate Exact<Q(!new), R(!new)>(b: Bridge<Q, R>)
  {
    var n := |b.completed|;
    var w := Where(b);
    && b.req.accepted <= b.begun && b.served <= b.begun && |b.answers| == |b.served|
    && b.rsp.accepted == b.answers && b.completed <= b.answers
    && (match b.c.mgr
        case NoTransfer =>
          && |b.begun| == |b.req.accepted| == |b.answers| == n
          && ClientState(b) == IDLE && w.Nowhere?
        case Setup(q) =>
          && b.begun == b.begun[..n] + [q] && |b.begun| == n + 1 && |b.req.accepted| == |b.answers| == n
          && w.Nowhere? && (ClientState(b) == SETUP || b.c.prev == UNKNOWN)
        case Access(q) =>
          && |b.begun| == n + 1 && b.begun[n] == q
          && (if ClientState(b) == SETUP then |b.req.accepted| == |b.answers| == n && w.Nowhere?
              else ClientState(b) == ACCESS && b.req.push.started && |b.req.accepted| == n + 1
                   && (if w.Nowhere? then (!b.req.up || !b.rsp.up) && n <= |b.answers| <= n + 1
                       else |b.answers| == if Requesting(w) then n else n + 1)))
  }

  ghost predicate Inv<Q(!new), R(!new)>(b: Bridge<Q, R>)
  {
    ClientOk(b) && ServerOk(b) && Exact(b)
    && Placed(b, if b.c.mgr.Access? then Some(b.c.mgr.req) else None)
  }

  /** The request was offered while the request channel had not started: it is dropped, and the
      manager waits for ever. */
  ghost predicate Lost<Q(!new), R(!new)>(b: Bridge<Q, R>)
  {
    && ClientOk(b) && ServerOk(b)
    && b.c.mgr.Access? && ClientState(b) == ACCESS && Where(b).Nowhere? && Placed(b, None)
    && |b.begun| == |b.completed| + 1 && |b.req.accepted| == |b.answers| == |b.served| == |b.completed|
  }

  // ---- an edge of the client side ----

  /** No transfer, or the setup phase of one that found the state register unset. */
  lemma ClientRests<Q(!new), R(!new)>(b: Bridge<Q, R>, next: Option<Q>, ok: bool, got: Return<R>, d: BothDelays)
    requires Inv(b) && ClientState(b) == IDLE
    ensures Inv(OnClient(b, next, ok, got, d))
  {
  }

  /** The request is offered: accepted if the request channel has started, dropped otherwise. */
  lemma ClientOffers<Q(!new), R(!new)>(b: Bridge<Q, R>, next: Option<Q>, ok: bool, got: Return<R>, d: BothDelays)
    requires Inv(b) && ClientState(b) == SETUP && b.req.push.started
    ensures Inv(OnClient(b, next, ok, got, d))
  {
    var b' := OnClient(b, next, ok, got, d);
    assert ClientState(b') == ACCESS && b'.s == b.s && b.req.push.rdy;
    assert b'.req.accepted == b.req.accepted + [b.c.mgr.req];
    assert b'.rsp.fifo == [] && !b'.rsp.pull.vld;
    if ok && b.req.up {
      assert b'.req.fifo == [b.c.mgr.req] && Where(b').OnRequests?;
    } else {
      assert b'.req.push.q == b.c.mgr.req && Where(b').ClientUnsent?;
    }
  }

  lemma ClientDrops<Q(!new), R(!new)>(b: Bridge<Q, R>, next: Option<Q>, ok: bool, got: Return<R>, d: BothDelays)
    requires Inv(b) && ClientState(b) == SETUP && !b.req.push.started
    ensures Lost(OnClient(b, next, ok, got, d))
  {
    var b' := OnClient(b, next, ok, got, d);
    assert ClientState(b') == ACCESS && b'.s == b.s;
  }

  lemma ClientWaits<Q(!new), R(!new)>(b: Bridge<Q, R>, next: Option<Q>, ok: bool, got: Return<R>, d: BothDelays)
    requires Inv(b) && ClientState(b) == ACCESS && !b.rsp.pull.vld
    ensures Inv(OnClient(b, next, ok, got, d))
  {
    var b' := OnClient(b, next, ok, got, d);
    assert ClientState(b') == ACCESS;
    assert b'.s == b.s;
    if Where(b).ClientUnsent? {
      assert if ok && b.req.up then b'.req.fifo == [b.req.push.q] else b'.req.push == b.req.push;
    } else if Where(b).OnResponses? {
      assert b'.rsp.fifo == b.rsp.fifo || (b'.rsp.fifo == [] && b'.rsp.pull.vld);
    }
  }

  lemma ClientCompletes<Q(!new), R(!new)>(b: Bridge<Q, R>, next: Option<Q>, ok: bool, got: Return<R>, d: BothDelays)
    requires Inv(b) && ClientState(b) == ACCESS && b.rsp.pull.vld
    ensures Inv(OnClient(b, next, ok, got, d))
  {
    var b' := OnClient(b, next, ok, got, d);
    assert Where(b).AtManager?;
    assert b'.completed == b.answers;
    assert b'.s == b.s;
    assert !b'.rsp.pull.vld;
  }

  lemma ClientStep<Q(!new), R(!new)>(b: Bridge<Q, R>, next: Option<Q>, ok: bool, got: Return<R>, d: BothDelays)
    requires Inv(b)
    ensures var b' := OnClient(b, next, ok, got, d);
            if ClientState(b) == SETUP && !b.req.push.started then Lost(b') else Inv(b')
  {
    hide OnClient;
    match ClientState(b)
    case IDLE => ClientRests(b, next, ok, got, d);
    case SETUP =>
      if b.req.push.started {
        ClientOffers(b, next, ok, got, d);
      } else {
        ClientDrops(b, next, ok, got, d);
      }
    case ACCESS =>
      if b.rsp.pull.vld {
        ClientCompletes(b, next, ok, got, d);
      } else {
        ClientWaits(b, next, ok, got, d);
      }
    case UNKNOWN =>
  }

  // ---- an edge of the server side ----

  lemma ServerRetries<Q(!new), R(!new)>(b: Bridge<Q, R>, pready: bool, rsp: R, ok: bool, req: Return<Q>, d: BothDelays)
    requires Inv(b) && ServerState(b) == IDLE && Where(b).ServerUnsent?
    ensures Inv(OnServer(b, pready, rsp, ok, req, d))
  {
    var b' := OnServer(b, pready, rsp, ok, req, d);
    assert b'.c == b.c && b'.req.fifo == [];
    assert if ok && b.rsp.up then b'.rsp.fifo == [b.rsp.push.q] else b'.rsp.push == b.rsp.push;
  }

  lemma ServerFetches<Q(!new), R(!new)>(b: Bridge<Q, R>, pready: bool, rsp: R, ok: bool, req: Return<Q>, d: BothDelays)
    requires Inv(b) && ServerState(b) == IDLE && Where(b).OnRequests?
    ensures Inv(OnServer(b, pready, rsp, ok, req, d))
  {
    var b' := OnServer(b, pready, rsp, ok, req, d);
    assert b'.c == b.c;
    assert b'.req.fifo == b.req.fifo || (b'.req.fifo == [] && b'.req.pull.vld);
  }

  lemma ServerRests<Q(!new), R(!new)>(b: Bridge<Q, R>, pready: bool, rsp: R, ok: bool, req: Return<Q>, d: BothDelays)
    requires Inv(b) && ServerState(b) == IDLE && !Where(b).ServerUnsent? && !Where(b).OnRequests?
    ensures Inv(OnServer(b, pready, rsp, ok, req, d))
  {
    var b' := OnServer(b, pready, rsp, ok, req, d);
    assert b'.c == b.c && Where(b') == Where(b);
  }

  lemma ServerPresents<Q(!new), R(!new)>(b: Bridge<Q, R>, pready: bool, rsp: R, ok: bool, req: Return<Q>, d: BothDelays)
    requires Inv(b) && ServerState(b) == SETUP
    ensures Inv(OnServer(b, pready, rsp, ok, req, d))
  {
    var b' := OnServer(b, pready, rsp, ok, req, d);
    assert b'.c == b.c;
    assert Where(b').AtSubordinate?;
  }

  lemma ServerAnswers<Q(!new), R(!new)>(b: Bridge<Q, R>, pready: bool, rsp: R, ok: bool, req: Return<Q>, d: BothDelays)
    requires Inv(b) && ServerState(b) == ACCESS
    ensures Inv(OnServer(b, pready, rsp, ok, req, d))
  {
    var b' := OnServer(b, pready, rsp, ok, req, d);
    assert b'.c == b.c;
    assert Where(b).AtSubordinate?;
    if pready {
      assert b'.answers == b.answers + [rsp];
      assert if ok && b.rsp.up then b'.rsp.fifo == [rsp] else Unsent(b'.rsp.push) == [rsp];
    }
  }

  lemma ServerStep<Q(!new), R(!new)>(b: Bridge<Q, R>, pready: bool, rsp: R, ok: bool, req: Return<Q>, d: BothDelays)
    requires Inv(b)
    ensures Inv(OnServer(b, pready, rsp, ok, req, d))
  {
    hide OnServer;
    match ServerState(b)
    case IDLE =>
      if Where(b).ServerUnsent? {
        ServerRetries(b, pready, rsp, ok, req, d);
      } else if Where(b).OnRequests? {
        ServerFetches(b, pready, rsp, ok, req, d);
      } else {
        ServerRests(b, pready, rsp, ok, req, d);
      }
    case SETUP => ServerPresents(b, pready, rsp, ok, req, d);
    case ACCESS => ServerAnswers(b, pready, rsp, ok, req, d);
    case UNKNOWN =>
  }

  lemma LostForEver<Q(!new), R(!new)>(b: Bridge<Q, R>, e: Event<Q, R>, d: BothDelays)
    requires Lost(b)
    ensures Lost(Next(b, e, d))
    ensures Next(b, e, d).completed == b.completed && Next(b, e, d).req.accepted == b.req.accepted
  {
  }

  lemma StartStep<Q(!new), R(!new)>(b: Bridge<Q, R>, e: Event<Q, R>, d: BothDelays)
    requires Inv(b) && (e.StartClient? || e.StartServer?)
    ensures Inv(Next(b, e, d))
  {
  }

  lemma HangStep<Q(!new), R(!new)>(b: Bridge<Q, R>, onRequests: bool, d: BothDelays)
    requires Inv(b)
    ensures Inv(Next(b, HangsUp(onRequests), d))
  {
    hide StateOf, RequestVld, Psel;
    assert Where(Next(b, HangsUp(onRequests), d)) == Where(b);
  }

  lemma LoseStep<Q(!new), R(!new)>(b: Bridge<Q, R>, onRequests: bool, d: BothDelays)
    requires Inv(b)
    ensures Inv(Next(b, Loses(onRequests), d))
  {
    hide StateOf, RequestVld, Psel;
    var b' := Next(b, Loses(onRequests), d);
    assert Where(b') == Where(b) || Where(b').Nowhere?;
  }

  // ---- every run ----

  /** At some edge of the run a request is offered to a request channel that has not started. */
  predicate OfferedEarly<Q, R>(b: Bridge<Q, R>, es: seq<Event<Q, R>>, d: BothDelays)
  {
    es != [] &&
    var m := Run(b, es[..|es| - 1], d);
    OfferedEarly(b, es[..|es| - 1], d)
    || (es[|es| - 1].ClientEdge? && ClientState(m) == SETUP && !m.req.push.started)
  }

  lemma {:induction false} BridgeRun<Q(!new), R(!new)>(q: Q, r: R, es: seq<Event<Q, R>>, d: BothDelays)
    ensures var b := Run(InitialBridge(q, r), es, d);
            if OfferedEarly(InitialBridge(q, r), es, d) then Lost(b) else Inv(b)
  {
    hide Inv, Lost, OnClient, OnServer;
    if es == [] {
      AtReset(q, r);
    } else {
      BridgeRun(q, r, es[..|es| - 1], d);
      var m := Run(InitialBridge(q, r), es[..|es| - 1], d);
      var e := es[|es| - 1];
      if OfferedEarly(InitialBridge(q, r), es[..|es| - 1], d) {
        LostForEver(m, e, d);
      } else {
        match e
        case ClientEdge(next, ok, got) => ClientStep(m, next, ok, got, d);
        case ServerEdge(pready, rsp, ok, req) => ServerStep(m, pready, rsp, ok, req, d);
        case StartClient => StartStep(m, e, d);
        case StartServer => StartStep(m, e, d);
        case HangsUp(onRequests) => HangStep(m, onRequests, d);
        case Loses(onRequests) => LoseStep(m, onRequests, d);
      }
    }
  }

  lemma AtReset<Q(!new), R(!new)>(q: Q, r: R)
    ensures Inv(InitialBridge(q, r))
  {
  }

  /** Each transfer is one request, sent by its access phase, and one response; the subordinate's `k`-th
      request is the manager's `k`-th, and the manager's `k`-th response is the subordinate's answer to
      it. */
  ghost predicate ExactlyOnce<Q(!new), R(!new)>(b: Bridge<Q, R>)
  {
    && b.req.accepted <= b.begun && b.served <= b.begun && b.completed <= b.answers
    && |b.answers| == |b.served| && b.rsp.accepted == b.answers
    && |b.completed| <= |b.answers| <= |b.req.accepted| <= |b.begun| <= |b.completed| + 1
    && (ClientState(b) == ACCESS ==> |b.req.accepted| == |b.begun|)
  }

  /** The request shown valid to a push module that is not ready is the one it has accepted and is
      retrying; a response is never shown to a push module that is not ready. */
  ghost predicate NeverRefused<Q(!new), R(!new)>(b: Bridge<Q, R>)
  {
    && (b.c.requestVld && !b.req.push.rdy ==> b.req.push.started && b.req.push.q == RequestData(b))
    && (b.c.requestVld && !b.req.push.rdy <==> Unsent(b.req.push) != [])
    && (ServerState(b) == ACCESS ==> b.rsp.push.rdy)
  }

  /** The bridge is exactly-once if and only if no request is offered before the request channel has
      started; otherwise the transfer under way never gets a response, whatever follows. */
  lemma ExactlyOnceIff<Q(!new), R(!new)>(q: Q, r: R, es: seq<Event<Q, R>>, d: BothDelays)
    ensures var b := Run(InitialBridge(q, r), es, d);
            && (ExactlyOnce(b) <==> !OfferedEarly(InitialBridge(q, r), es, d))
            && (ExactlyOnce(b) ==> NeverRefused(b) || (ClientState(b) == SETUP && !b.req.push.started))
            && (!ExactlyOnce(b) ==> b.c.mgr.Access? && ClientState(b) == ACCESS && Where(b).Nowhere?)
            && (ExactlyOnce(b) && ClientState(b) == ACCESS && Where(b).Nowhere? ==> !b.req.up || !b.rsp.up)
  {
    BridgeRun(q, r, es, d);
  }

  lemma RunOfFour<Q, R>(b: Bridge<Q, R>, es: seq<Event<Q, R>>, d: BothDelays)
    requires |es| == 4
    ensures Run(b, es[..2], d) == Next(Next(b, es[0], d), es[1], d)
    ensures Run(b, es, d) == Next(Next(Run(b, es[..2], d), es[2], d), es[3], d)
    ensures ClientState(Run(b, es[..2], d)) == SETUP && !Run(b, es[..2], d).req.push.started && es[2].ClientEdge? ==>
              OfferedEarly(b, es, d)
  {
    hide Next, ClientState;
    assert es[..3][..2] == es[..2] && es[..2][..1] == es[..1] && es[..1][..0] == [];
    assert Run(b, es[..1], d) == Next(b, es[0], d);
    assert Run(b, es[..3], d) == Next(Run(b, es[..2], d), es[2], d);
    if ClientState(Run(b, es[..2], d)) == SETUP && !Run(b, es[..2], d).req.push.started && es[2].ClientEdge? {
      assert OfferedEarly(b, es[..3], d);
    }
  }

  /** Such a run: the manager begins at the first edge, the client starts two edges later. */
  lemma RequestDropped(d: BothDelays)
    ensures var es := [ClientEdge(None, true, Pending), ClientEdge(Some(7), true, Pending),
                       ClientEdge(None, true, Pending), StartClient];
            var b := Run(InitialBridge(0, 0), es, d);
            OfferedEarly(InitialBridge(0, 0), es, d) && Lost(b) && b.req.push.rdy && !b.c.requestVld
  {
    hide Run, OfferedEarly, Lost;
    var es := [ClientEdge(None, true, Pending), ClientEdge(Some(7), true, Pending),
               ClientEdge(None, true, Pending), StartClient];
    RunOfFour(InitialBridge<int, int>(0, 0), es, d);
    BridgeRun(0, 0, es, d);
  }

  /** A request shown valid to its push module while that one is not ready: the first send fails. */
  lemma RequestShownWhileRetried(d: BothDelays)
    ensures var es := [ClientEdge(None, true, Pending), StartClient, ClientEdge(Some(7), true, Pending),
                       ClientEdge(None, false, Pending)];
            var b := Run(InitialBridge(0, 0), es, d);
            b.c.requestVld && !b.req.push.rdy && Unsent(b.req.push) == [7]
  {
    hide Run, OfferedEarly;
    var es := [ClientEdge(None, true, Pending), StartClient, ClientEdge(Some(7), true, Pending),
               ClientEdge(None, false, Pending)];
    RunOfFour(InitialBridge<int, int>(0, 0), es, d);
  }

  // ---- the two APB interfaces ----

  /** The subordinate sees APB transfers: a setup phase of one edge, then an access phase with the same request until
      it is ready. */
  lemma SubordinateSees<Q(!new), R(!new)>(b: Bridge<Q, R>, pready: bool, rsp: R, ok: bool, got: Return<Q>, d: BothDelays)
    requires Inv(b)
    ensures var b' := OnServer(b, pready, rsp, ok, got, d);
            && (ServerState(b) == SETUP ==> ServerState(b') == ACCESS && b'.s.req == b.s.req == b.req.pull.data)
            && (ServerState(b) == ACCESS && !pready ==> ServerState(b') == ACCESS && b'.s.req == b.s.req)
            && (ServerState(b) == ACCESS && pready ==> ServerState(b') != ACCESS)
            && (ServerState(b) == IDLE ==> ServerState(b') != ACCESS)
  {
  }

  /** The manager sees pready in the access phase of a transfer only, with its response. */
  lemma ManagerSees<Q(!new), R(!new)>(b: Bridge<Q, R>)
    requires Inv(b) && b.rsp.pull.vld
    ensures b.c.mgr.Access? && |b.answers| == |b.begun| == |b.completed| + 1
    ensures b.rsp.pull.data == b.answers[|b.completed|] && b.c.mgr.req == b.begun[|b.completed|]
  {
  }

  // ---- a transfer can always be finished ----

  /** Steps of the transfer from each place to the manager. */
  function StepsLeft(w: Place): nat
  {
    match w
    case Nowhere => 8
    case ClientUnsent => 7
    case OnRequests => 6
    case Pulled => 5
    case AtSubordinate => 4
    case ServerUnsent => 3
    case OnResponses => 2
    case AtManager => 1
  }

  /** Edges until the pull module that the transfer waits for is in its call. */
  function EdgesLeft<Q, R>(b: Bridge<Q, R>): nat
  {
    match Where(b)
    case OnRequests => EdgesToCall(b.req.pull) + (if b.req.pull.started then 0 else 1)
    case OnResponses => EdgesToCall(b.rsp.pull)
    case _ => 0
  }

  /** The useful edge, with calls that succeed; `rsp` is the subordinate's answer. */
  function HelpfulEdge<Q, R>(b: Bridge<Q, R>, rsp: R): Event<Q, R>
  {
    match Where(b)
    case ClientUnsent => ClientEdge(None, true, Success(rsp))
    case OnResponses => ClientEdge(None, true, Success(rsp))
    case AtManager => ClientEdge(None, true, Success(rsp))
    case OnRequests =>
      if b.req.pull.started then ServerEdge(true, rsp, true, Success(b.s.req)) else StartServer
    case _ => ServerEdge(true, rsp, true, Success(b.s.req))
  }

  /** The transfer is under way and both connections are up. */
  ghost predicate UnderWay<Q(!new), R(!new)>(b: Bridge<Q, R>)
  {
    Inv(b) && ClientState(b) == ACCESS && b.req.up && b.rsp.up
  }

  /** One transfer more is complete, or the one under way is closer to its end. */
  ghost predicate Closer<Q(!new), R(!new)>(b: Bridge<Q, R>, b': Bridge<Q, R>)
  {
    || (Inv(b') && |b'.completed| == |b.completed| + 1)
    || (&& UnderWay(b') && b'.completed == b.completed
        && (StepsLeft(Where(b')) < StepsLeft(Where(b))
            || (Where(b') == Where(b) && EdgesLeft(b') < EdgesLeft(b))))
  }

  lemma ClientHelps<Q(!new), R(!new)>(b: Bridge<Q, R>, rsp: R, d: BothDelays)
    requires UnderWay(b) && HelpfulEdge(b, rsp).ClientEdge?
    ensures Closer(b, OnClient(b, None, true, Success(rsp), d))
  {
    var b' := OnClient(b, None, true, Success(rsp), d);
    ClientStep(b, None, true, Success(rsp), d);
    if Where(b).ClientUnsent? {
      assert b'.req.fifo == [b.req.push.q] && Where(b').OnRequests?;
    } else if Where(b).OnResponses? {
      assert if PullCalls(b.rsp.pull, true) then b'.rsp.fifo == [] && Where(b').AtManager? else Where(b').OnResponses?;
    }
  }

  lemma ServerHelps<Q(!new), R(!new)>(b: Bridge<Q, R>, rsp: R, d: BothDelays)
    requires UnderWay(b) && HelpfulEdge(b, rsp).ServerEdge?
    ensures Closer(b, OnServer(b, true, rsp, true, Success(b.s.req), d))
  {
    var b' := OnServer(b, true, rsp, true, Success(b.s.req), d);
    ServerStep(b, true, rsp, true, Success(b.s.req), d);
    match Where(b)
    case OnRequests =>
      assert if PullCalls(b.req.pull, true) then b'.req.fifo == [] && Where(b').Pulled? else Where(b').OnRequests?;
    case Pulled =>
      assert Where(b').AtSubordinate?;
    case AtSubordinate =>
      assert b'.rsp.fifo == [rsp] && Where(b').OnResponses?;
    case ServerUnsent =>
      assert b'.rsp.fifo == [b.rsp.push.q] && Where(b').OnResponses?;
    case _ =>
  }

  lemma StartHelps<Q(!new), R(!new)>(b: Bridge<Q, R>, rsp: R, d: BothDelays)
    requires UnderWay(b) && HelpfulEdge(b, rsp).StartServer?
    ensures Closer(b, Next(b, StartServer, d))
  {
    StartStep(b, StartServer, d);
  }

  lemma {:induction false} RunFirst<Q, R>(b: Bridge<Q, R>, e: Event<Q, R>, es: seq<Event<Q, R>>, d: BothDelays)
    ensures Run(b, [e] + es, d) == Run(Next(b, e, d), es, d)
    decreases |es|
  {
    hide Next;
    var all := [e] + es;
    if es == [] {
      assert all[..0] == [];
      assert Run(b, all, d) == Next(Run(b, all[..0], d), all[0], d);
    } else {
      RunFirst(b, e, es[..|es| - 1], d);
      assert all[..|all| - 1] == [e] + es[..|es| - 1];
    }
  }

  /** From every state with a transfer in its access phase and both connections up, some edges, after the start of
      the server if need be, complete it, whatever the delays. */
  lemma {:induction false} TransferCanFinish<Q(!new), R(!new)>(b: Bridge<Q, R>, rsp: R, d: BothDelays)
    returns (es: seq<Event<Q, R>>)
    requires UnderWay(b)
    ensures Inv(Run(b, es, d)) && |Run(b, es, d).completed| == |b.completed| + 1
    ensures forall e :: e in es ==> e.ClientEdge? || e.ServerEdge? || e.StartServer?
    decreases StepsLeft(Where(b)), EdgesLeft(b)
  {
    hide Inv, Where, EdgesLeft, StepsLeft, OnClient, OnServer, ClientState, ReadyValid.Next;
    var e := HelpfulEdge(b, rsp);
    if e.ClientEdge? {
      ClientHelps(b, rsp, d);
    } else if e.StartServer? {
      StartHelps(b, rsp, d);
    } else {
      ServerHelps(b, rsp, d);
    }
    var b' := Next(b, e, d);
    if |b'.completed| == |b.completed| + 1 {
      es := [e];
      RunFirst(b, e, [], d);
    } else {
      var rest := TransferCanFinish(b', rsp, d);
      es := [e] + rest;
      RunFirst(b, e, rest, d);
    }
  }

  // ---- the modules as objects ----

  class ApbFsm {
    var prevState: ApbState
    var apbPreadyD1: bool

    constructor ()
      ensures prevState == UNKNOWN && !apbPreadyD1
    {
      prevState, apbPreadyD1 := UNKNOWN, false;
    }

    function State(psel: bool): ApbState reads this { StateOf(prevState, psel, apbPreadyD1) }

    method Posedge(pready: bool, psel: bool)
      modifies this
      ensures prevState == old(State(psel)) && apbPreadyD1 == pready
    {
      prevState, apbPreadyD1 := State(psel), pready;
    }
  }

  /** The client side around its push and pull modules. */
  class ClientApbPush {
    const fsm: ApbFsm
    var requestVld: bool

    constructor ()
      ensures fresh(fsm) && fsm.prevState == UNKNOWN && !fsm.apbPreadyD1 && !requestVld
    {
      fsm := new ApbFsm();
      requestVld := false;
    }

    /** The combinational block: in ACCESS request_vld is a latch. */
    method AlwaysComb(psel: bool, requestRdy: bool)
      modifies this
      ensures requestVld == RequestVld(fsm.State(psel), requestRdy, old(requestVld))
    {
      match fsm.State(psel)
      case IDLE => requestVld := false;
      case SETUP => requestVld := true;
      case ACCESS =>
        if requestRdy {
          requestVld := false;
        }
      case UNKNOWN => requestVld := false;
    }
  }

  /** The server side around its pull and push modules. */
  class ServerApbPull<Q> {
    const fsm: ApbFsm
    var oApbMReq: Q

    constructor (q: Q)
      ensures fresh(fsm) && fsm.prevState == UNKNOWN && !fsm.apbPreadyD1 && oApbMReq == q
    {
      fsm := new ApbFsm();
      oApbMReq := q;
    }

    /** The combinational block: o_apb_m_req is a latch outside of SETUP. */
    method AlwaysComb(requestVld: bool, requestData: Q) returns (requestRdy: bool, psel: bool, penable: bool)
      modifies this
      ensures requestRdy == RequestRdy(fsm.State(requestVld))
      ensures psel == (fsm.State(requestVld) != IDLE) && penable == (fsm.State(requestVld) == ACCESS)
      ensures oApbMReq == if fsm.State(requestVld) == SETUP then requestData else old(oApbMReq)
    {
      var state := fsm.State(requestVld);
      match state {
        case IDLE => requestRdy := true;
        case SETUP =>
          requestRdy := true;
          oApbMReq := requestData;
        case ACCESS => requestRdy := false;
        case UNKNOWN => requestRdy := false;
      }
      psel, penable := state != IDLE, state == ACCESS;
    }
  }

  /** The client side with its manager. */
  class ClientSide<Q> {
    const side: ClientApbPush
    var mgr: Manager<Q>

    ghost function View(): Client<Q>
      reads this, side, side.fsm
    {
      Client(mgr, side.fsm.prevState, side.fsm.apbPreadyD1, side.requestVld)
    }

    constructor ()
      ensures View() == Client(NoTransfer, UNKNOWN, false, false) && fresh(side) && fresh(side.fsm)
    {
      side := new ClientApbPush();
      mgr := NoTransfer;
    }

    /** An edge, and the settling after it with request_rdy at `rdy`. */
    method Posedge(pready: bool, next: Option<Q>, rdy: bool)
      modifies this, side, side.fsm
      ensures View() == AfterClient(old(View()), pready, next, rdy)
    {
      hide StateOf, RequestVld, NextManager;
      side.fsm.Posedge(pready, Psel(mgr));
      mgr := NextManager(mgr, pready, next);
      side.AlwaysComb(Psel(mgr), rdy);
    }
  }

  class ServerSide<Q> {
    const side: ServerApbPull<Q>

    ghost function View(): Server<Q>
      reads side, side.fsm
    {
      Server(side.fsm.prevState, side.fsm.apbPreadyD1, side.oApbMReq)
    }

    constructor (q: Q)
      ensures View() == Server(UNKNOWN, false, q) && fresh(side) && fresh(side.fsm)
    {
      side := new ServerApbPull<Q>(q);
    }

    /** An edge, and the settling after it with request_vld and request_data at `vldNow` and `data`. */
    method Posedge(vld: bool, pready: bool, vldNow: bool, data: Q)
      modifies side, side.fsm
      ensures View() == AfterServer(old(View()), vld, pready, vldNow, data)
    {
      hide StateOf;
      side.fsm.Posedge(pready, vld);
      var requestRdy, psel, penable := side.AlwaysComb(vldNow, data);
    }
  }

  /** Both sides, clocked by their two clocks, with the channels between their push and pull modules. */
  class ApbBridge<Q, R> {
    const client: ClientSide<Q>
    const server: ServerSide<Q>
    const d: BothDelays
    var req: Link<Q>
    var rsp: Link<R>
    ghost var begun: seq<Q>
    ghost var served: seq<Q>
    ghost var answers: seq<R>
    ghost var completed: seq<R>

    ghost predicate Valid() { client.side.fsm != server.side.fsm }

    ghost function View(): Bridge<Q, R>
      reads this, client, client.side, client.side.fsm, server.side, server.side.fsm
    {
      Bridge(client.View(), server.View(), req, rsp, begun, served, answers, completed)
    }

    constructor (d: BothDelays, q: Q, r: R)
      ensures Valid() && View() == InitialBridge(q, r) && this.d == d
    {
      client := new ClientSide<Q>();
      server := new ServerSide<Q>(q);
      this.d, req, rsp := d, Fresh(q, q), Fresh(r, r);
      begun, served, answers, completed := [], [], [], [];
    }

    /** An edge of the client's clock. */
    method ClientPosedge(next: Option<Q>, ok: bool, got: Return<R>)
      requires Valid()
      modifies this, client, client.side, client.side.fsm
      ensures Valid() && View() == OnClient(old(View()), next, ok, got, d)
    {
      hide ReadyValid.Next, AfterClient, NextManager, Begins;
      completed := if client.mgr.Access? && rsp.pull.vld then completed + [rsp.pull.data] else completed;
      begun := begun + Begins(client.mgr, NextManager(client.mgr, rsp.pull.vld, next));
      var data := if client.mgr.NoTransfer? then req.push.q else client.mgr.req;
      req := ReadyValid.Next(req, PushEdge(client.side.requestVld, data, ok), d.client);
      client.Posedge(rsp.pull.vld, next, req.push.rdy);
      rsp := ReadyValid.Next(rsp, PullEdge(true, got), d.client);
      ghost var v, w := View(), OnClient(old(View()), next, ok, got, d);
      assert v.c == w.c;
      assert v.req == w.req && v.rsp == w.rsp;
      assert v.begun == w.begun;
      assert v.completed == w.completed;
    }

    /** An edge of the server's clock, with the outputs of the subordinate. */
    method ServerPosedge(pready: bool, response: R, ok: bool, got: Return<Q>)
      requires Valid()
      modifies this, server.side, server.side.fsm
      ensures Valid() && View() == OnServer(old(View()), pready, response, ok, got, d)
    {
      hide ReadyValid.Next, AfterServer, StateOf, RequestRdy;
      var vld, state := req.pull.vld, server.side.fsm.State(req.pull.vld);
      var responseVld := pready && state == ACCESS;
      served := if responseVld then served + [server.side.oApbMReq] else served;
      answers := if responseVld then answers + [response] else answers;
      rsp := ReadyValid.Next(rsp, PushEdge(responseVld, response, ok), d.server);
      req := ReadyValid.Next(req, PullEdge(RequestRdy(state), got), d.server);
      server.Posedge(vld, pready, req.pull.vld, req.pull.data);
    }
  }
}
