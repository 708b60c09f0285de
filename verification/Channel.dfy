/** A channel at the level of system calls: the push module's process, a bounded byte stream, and the
    pull module's process, each call of send() and read() being one step. It refines the
    word-by-word channel of ReadyValid, hence a FIFO. */
module Channel {
  import opened Wrappers
  import opened Messages
  import opened Numbers
  import opened SocketIo
  import opened ReadyValid

  /** An edge of the push module that is inside send_msg: `done` bytes of `msg` are on the stream. */
  datatype Sending = Sending(vld: bool, data: Msg, msg: Msg, done: nat)

  /** An edge of the pull module that is inside read_msg, with the bytes it has got. */
  datatype Reading = Reading(rdy: bool, got: seq<byte>)

  /** `server` says that the push side is a server, which drops its client on EINTR. */
  datatype Config = Config(size: nat, capacity: nat, server: bool, delays: Delays)

  datatype Chan = Chan(push: PushRegs<Msg>, send: Option<Sending>, stream: seq<byte>,
                       read: Option<Reading>, pull: PullRegs<Msg>, up: bool,
                       accepted: seq<Msg>, taken: seq<Msg>)

  /** The steps of the two processes and of the environment, in any order. */
  datatype Step =
    | PushModuleStarts
    | PullModuleStarts
    | PushClock(vld: bool, data: Msg)
    | SendCall(a: Answer)
    | PullClock(rdy: bool)
    | ReadCall(a: Answer)
    | Disconnect

  function Initial(q: Msg, data: Msg): Chan
  {
    Chan(PushRegs(false, false, q), None, [], None, PullReset(data), true, [], [])
  }

  /** What the kernel may answer: a connection that is up neither ends nor breaks, and no more bytes
      cross than there is room for; one that is down takes no more bytes. */
  function SendAnswer(a: Answer, c: Chan, room: nat): (b: Answer)
    ensures b.Moved? ==> c.up && room > 0
    ensures b.Eof? || b.Broken? ==> !c.up
  {
    if c.up then (if a.Eof? || a.Broken? || (a.Moved? && room == 0) then Again else a)
    else (if a.Moved? then Broken else a)
  }

  function Room(c: Chan, g: Config): nat { if |c.stream| < g.capacity then g.capacity - |c.stream| else 0 }

  function ReadAnswer(a: Answer, c: Chan): (b: Answer)
    ensures b.Moved? ==> c.stream != []
    ensures b.Eof? || b.Broken? ==> !c.up
  {
    if c.up then (if a.Eof? || a.Broken? || (a.Moved? && c.stream == []) then Again else a)
    else (if a.Moved? && c.stream == [] then Eof else a)
  }

  /** The push edge ends: the DPI returned `ok`. */
  function PushReturns(c: Chan, s: Sending, ok: bool): Chan
  {
    c.(push := PushCommit(c.push, s.vld, s.data, ok), send := None,
       accepted := if s.vld && c.push.rdy then c.accepted + [s.data] else c.accepted)
  }

  /** The pull edge ends, with what the DPI returned. */
  function PullReturns(c: Chan, rdy: bool, ret: Return<Msg>, d: Delays): Chan
  {
    c.(pull := PullCommit(c.pull, rdy, ret, d), read := None,
       taken := if PullTakes(c.pull, rdy) then c.taken + [c.pull.data] else c.taken)
  }

  /** send() moved `k` bytes: the edge ends with the last one. */
  function Gives(c: Chan, s: Sending, k: nat): Chan
    requires s.done + k <= |s.msg|
  {
    var c' := c.(stream := c.stream + s.msg[s.done..s.done + k]);
    if s.done + k == |s.msg| then PushReturns(c', s, true)
    else c'.(send := Some(s.(done := s.done + k)))
  }

  function StepSend(c: Chan, s: Sending, a: Answer, g: Config): Chan
    requires s.done < |s.msg|
  {
    var room := Room(c, g);
    var b := SendAnswer(a, c, room);
    if b.Moved? then Gives(c, s, Clamp(b.n, Min(|s.msg| - s.done, room)))
    else
      match WaitAndRetry(s.done, b)
      case None => c
      case Some(o) => PushReturns(c.(up := c.up && !(g.server && o != Failed(EAGAIN))), s, false)
  }

  /** read() moved `k` bytes: the edge ends with the last one. */
  function Gets(c: Chan, r: Reading, k: nat, g: Config): Chan
    requires k <= |c.stream| && |r.got| + k <= g.size
  {
    var c' := c.(stream := c.stream[k..]);
    var got := r.got + c.stream[..k];
    if |got| == g.size then PullReturns(c', r.rdy, Success(got), g.delays)
    else c'.(read := Some(r.(got := got)))
  }

  function StepRead(c: Chan, r: Reading, a: Answer, g: Config): Chan
    requires |r.got| < g.size
  {
    var b := ReadAnswer(a, c);
    if b.Moved? then Gets(c, r, Clamp(b.n, Min(g.size - |r.got|, |c.stream|)), g)
    else
      match WaitAndRetry(|r.got|, b)
      case None => c
      case Some(o) =>
        PullReturns(if b.Eof? || b.Broken? then c.(stream := []) else c, r.rdy, Fail(r.got), g.delays)
  }

  function Next(c: Chan, e: Step, g: Config): Chan
    requires WellFormed(c, g)
  {
    match e
    case PushModuleStarts => c.(push := PushStart(c.push))
    case PullModuleStarts => c.(pull := c.pull.(started := true))
    case PushClock(vld, data) =>
      if c.send.Some? || |data| != g.size then c
      else (
        match PushOffers(c.push, vld, data)
        case None => c
        case Some(msg) => c.(send := Some(Sending(vld, data, msg, 0)))
      )
    case SendCall(a) => if c.send.None? then c else StepSend(c, c.send.value, a, g)
    case PullClock(rdy) =>
      if c.read.Some? then c
      else if PullCalls(c.pull, rdy) then c.(read := Some(Reading(rdy, [])))
      else PullReturns(c, rdy, Fail([]), g.delays)
    case ReadCall(a) => if c.read.None? then c else StepRead(c, c.read.value, a, g)
    case Disconnect => c.(up := false)
  }

  predicate WellFormed(c: Chan, g: Config)
  {
    && g.size > 0
    && (c.push.rdy ==> c.push.started)
    && (c.push.started && !c.push.rdy ==> |c.push.q| == g.size)
    && (c.send.Some? ==>
          var s := c.send.value;
          && |s.msg| == g.size && |s.data| == g.size && s.done < g.size
          && PushOffers(c.push, s.vld, s.data) == Some(s.msg))
    && (c.read.Some? ==> |c.read.value.got| < g.size && PullCalls(c.pull, c.read.value.rdy))
    && PullOk(c.pull)
  }

  lemma WellFormedSend(c: Chan, a: Answer, g: Config)
    requires WellFormed(c, g)
    ensures WellFormed(Next(c, SendCall(a), g), g)
  {
  }

  lemma WellFormedStep(c: Chan, e: Step, g: Config)
    requires WellFormed(c, g)
    ensures WellFormed(Next(c, e, g), g)
  {
    if e.SendCall? {
      WellFormedSend(c, e.a, g);
    }
  }

  function Run(c: Chan, es: seq<Step>, g: Config): (c': Chan)
    requires WellFormed(c, g)
    ensures WellFormed(c', g)
  {
    if es == [] then c
    else
      var m := Run(c, es[..|es| - 1], g);
      WellFormedStep(m, es[|es| - 1], g);
      Next(m, es[|es| - 1], g)
  }

  // ---- refinement of the word-by-word channel ----

  function Got(c: Chan): seq<byte> { if c.read.Some? then c.read.value.got else [] }

  /** The bytes past the push side: in the reader's buffer, then on the stream. */
  function Crossed(c: Chan): seq<byte> { Got(c) + c.stream }

  /** The part of the message being sent that is on the stream already. */
  function SentPart(c: Chan): seq<byte>
  {
    if c.send.Some? && c.send.value.done <= |c.send.value.msg| then c.send.value.msg[..c.send.value.done] else []
  }

  /** While the connection is up the bytes that crossed are whole messages, then the beginning of
      the message being sent. */
  ghost predicate Aligned(c: Chan, g: Config)
    requires g.size > 0
  {
    c.up ==> Tail(Crossed(c), g.size) == SentPart(c)
  }

  function Abs(c: Chan, g: Config): Link<Msg>
    requires g.size > 0
  {
    Link(c.push, Chunks(Crossed(c), g.size), c.pull, c.up, c.accepted, c.taken)
  }

  /** The steps of the word-by-word channel that a step stands for. */
  function Image(c: Chan, e: Step, g: Config): seq<Event<Msg>>
    requires WellFormed(c, g)
  {
    match e
    case PushModuleStarts => [StartPush]
    case PullModuleStarts => [StartPull]
    case PushClock(vld, data) => []
    case SendCall(a) =>
      if c.send.None? then []
      else
        var s := c.send.value;
        var c' := Next(c, e, g);
        if c'.send.Some? then []
        else [PushEdge(s.vld, s.data, SendAnswer(a, c, Room(c, g)).Moved?)]
             + (if c'.up == c.up then [] else [HangUp])
    case PullClock(rdy) => if c.read.Some? || PullCalls(c.pull, rdy) then [] else [PullEdge(rdy, Fail([]))]
    case ReadCall(a) =>
      if c.read.None? then []
      else
        var r := c.read.value;
        var b := ReadAnswer(a, c);
        if Next(c, e, g).read.Some? then []
        else (if b.Eof? || b.Broken? then [Lose] else []) + [PullEdge(r.rdy, if b.Moved? then Success(r.got) else Fail(r.got))]
    case Disconnect => [HangUp]
  }

  /** A send() that moves bytes. */
  lemma GivesRefines(c: Chan, s: Sending, k: nat, g: Config)
    requires WellFormed(c, g) && Aligned(c, g) && c.up && c.send == Some(s) && s.done + k <= |s.msg|
    ensures Aligned(Gives(c, s, k), g)
    ensures Abs(Gives(c, s, k), g) ==
            if s.done + k == |s.msg| then ReadyValid.Next(Abs(c, g), PushEdge(s.vld, s.data, true), g.delays)
            else Abs(c, g)
  {
    hide Chunks, Tail;
    var c' := Gives(c, s, k);
    var x := s.msg[s.done..s.done + k];
    assert Crossed(c') == Crossed(c) + x;
    assert s.msg[..s.done] + x == s.msg[..s.done + k];
    AppendBytes(Crossed(c), x, g.size);
    assert s.done + k == |s.msg| ==> s.msg[..s.done + k] == s.msg;
  }

  lemma SendMoves(c: Chan, a: Answer, g: Config)
    requires WellFormed(c, g) && Aligned(c, g) && c.send.Some? && SendAnswer(a, c, Room(c, g)).Moved?
    ensures Aligned(Next(c, SendCall(a), g), g)
    ensures Abs(Next(c, SendCall(a), g), g) == ReadyValid.Run(Abs(c, g), Image(c, SendCall(a), g), g.delays)
  {
    hide Chunks, Tail, ReadyValid.Run, Gives, Abs, Aligned, ReadyValid.Next;
    var s := c.send.value;
    var k := Clamp(SendAnswer(a, c, Room(c, g)).n, Min(|s.msg| - s.done, Room(c, g)));
    GivesRefines(c, s, k, g);
    GivesEnds(c, s, k, g);
    RunShort(Abs(c, g), Image(c, SendCall(a), g), g.delays);
  }

  lemma GivesEnds(c: Chan, s: Sending, k: nat, g: Config)
    requires s.done + k <= |s.msg|
    ensures Gives(c, s, k).send.Some? <==> s.done + k < |s.msg|
    ensures Gives(c, s, k).up == c.up
  {
  }

  /** A send() that moves nothing: wait, or end the edge with a failure. */
  lemma SendStops(c: Chan, a: Answer, g: Config)
    requires WellFormed(c, g) && Aligned(c, g) && c.send.Some?
    requires !SendAnswer(a, c, Room(c, g)).Moved?
    ensures Aligned(Next(c, SendCall(a), g), g)
    ensures Abs(Next(c, SendCall(a), g), g) == ReadyValid.Run(Abs(c, g), Image(c, SendCall(a), g), g.delays)
  {
    hide Chunks, Tail, ReadyValid.Run;
    var c' := Next(c, SendCall(a), g);
    assert Crossed(c') == Crossed(c);
    assert c'.up ==> SentPart(c') == SentPart(c);
    RunShort(Abs(c, g), Image(c, SendCall(a), g), g.delays);
  }

  lemma RunShort<W>(l: Link<W>, es: seq<Event<W>>, d: Delays)
    requires |es| <= 2
    ensures ReadyValid.Run(l, es, d) ==
            if es == [] then l
            else if |es| == 1 then ReadyValid.Next(l, es[0], d)
            else ReadyValid.Next(ReadyValid.Next(l, es[0], d), es[1], d)
  {
    if |es| == 2 {
      assert es[..1][..0] == [];
    }
  }

  /** A read() that moves bytes. */
  lemma GetsRefines(c: Chan, r: Reading, k: nat, g: Config)
    requires WellFormed(c, g) && Aligned(c, g) && c.read == Some(r) && k <= |c.stream| && |r.got| + k <= g.size
    ensures Aligned(Gets(c, r, k, g), g)
    ensures Abs(Gets(c, r, k, g), g) ==
            if |r.got| + k == g.size then ReadyValid.Next(Abs(c, g), PullEdge(r.rdy, Success(r.got)), g.delays)
            else Abs(c, g)
  {
    hide Chunks, Tail;
    var c' := Gets(c, r, k, g);
    var got := r.got + c.stream[..k];
    assert Crossed(c) == got + c.stream[k..];
    if |got| == g.size {
      FirstMessage(got, c.stream[k..], g.size);
      assert Crossed(c') == c.stream[k..];
      assert Chunks(Crossed(c), g.size)[1..] == Chunks(c.stream[k..], g.size);
    } else {
      assert Crossed(c') == Crossed(c);
    }
  }

  lemma GetsEnds(c: Chan, r: Reading, k: nat, g: Config)
    requires k <= |c.stream| && |r.got| + k <= g.size
    ensures Gets(c, r, k, g).read.Some? <==> |r.got| + k < g.size
  {
  }

  lemma ReadMoves(c: Chan, a: Answer, g: Config)
    requires WellFormed(c, g) && Aligned(c, g) && c.read.Some? && ReadAnswer(a, c).Moved?
    ensures Aligned(Next(c, ReadCall(a), g), g)
    ensures Abs(Next(c, ReadCall(a), g), g) == ReadyValid.Run(Abs(c, g), Image(c, ReadCall(a), g), g.delays)
  {
    hide Chunks, Tail, ReadyValid.Run, Gets, Abs, Aligned, ReadyValid.Next;
    var r := c.read.value;
    var k := Clamp(ReadAnswer(a, c).n, Min(g.size - |r.got|, |c.stream|));
    GetsRefines(c, r, k, g);
    GetsEnds(c, r, k, g);
    RunShort(Abs(c, g), Image(c, ReadCall(a), g), g.delays);
  }

  /** A read() that moves nothing: wait, or end the edge with a failure. */
  lemma ReadStops(c: Chan, a: Answer, g: Config)
    requires WellFormed(c, g) && Aligned(c, g) && c.read.Some? && !ReadAnswer(a, c).Moved?
    ensures Aligned(Next(c, ReadCall(a), g), g)
    ensures Abs(Next(c, ReadCall(a), g), g) == ReadyValid.Run(Abs(c, g), Image(c, ReadCall(a), g), g.delays)
  {
    hide Chunks, Tail, ReadyValid.Run;
    var r := c.read.value;
    var b := ReadAnswer(a, c);
    var c' := Next(c, ReadCall(a), g);
    if c'.read.None? && (b.Eof? || b.Broken?) {
      assert Crossed(c') == [];
      EmptyStream(g.size);
    } else {
      assert c'.read.None? ==> r.got == [];
      assert Crossed(c') == Crossed(c);
    }
    RunShort(Abs(c, g), Image(c, ReadCall(a), g), g.delays);
  }

  lemma EmptyStream(size: nat)
    requires size > 0
    ensures Chunks([], size) == [] && Tail([], size) == []
  {
  }

  /** Every system call, clock edge or disconnection is a run of at most two steps of the
      word-by-word channel, possibly none. */
  lemma Refines(c: Chan, e: Step, g: Config)
    requires WellFormed(c, g) && Aligned(c, g)
    ensures Aligned(Next(c, e, g), g)
    ensures Abs(Next(c, e, g), g) == ReadyValid.Run(Abs(c, g), Image(c, e, g), g.delays)
  {
    hide Chunks, Tail, ReadyValid.Run;
    if e.SendCall? && c.send.Some? {
      if SendAnswer(e.a, c, Room(c, g)).Moved? {
        SendMoves(c, e.a, g);
      } else {
        SendStops(c, e.a, g);
      }
    } else if e.ReadCall? && c.read.Some? {
      if ReadAnswer(e.a, c).Moved? {
        ReadMoves(c, e.a, g);
      } else {
        ReadStops(c, e.a, g);
      }
    } else {
      var c' := Next(c, e, g);
      assert Crossed(c') == Crossed(c);
      assert SentPart(c') == SentPart(c);
      RunShort(Abs(c, g), Image(c, e, g), g.delays);
    }
  }

  // ---- the FIFO ----

  /** The words accepted at the push interface, the one of the edge under way included. */
  function AcceptedNow(c: Chan): seq<Msg>
  {
    if c.send.Some? && c.send.value.vld && c.push.rdy then c.accepted + [c.send.value.data] else c.accepted
  }

  function TakenNow(c: Chan): seq<Msg>
  {
    if c.read.Some? && PullTakes(c.pull, c.read.value.rdy) then c.taken + [c.pull.data] else c.taken
  }

  /** The word shown valid and not taken by the edge under way. */
  function HeldNow(c: Chan): seq<Msg> { if c.read.None? && c.pull.vld then [c.pull.data] else [] }

  function Remainder(c: Chan): seq<byte>
  {
    if c.send.Some? && c.send.value.done <= |c.send.value.msg| then c.send.value.msg[c.send.value.done..] else []
  }

  /** The word kept in data_q for the next attempt, unless it is being sent. */
  function UnsentNow(c: Chan): seq<Msg> { if c.send.None? then Unsent(c.push) else [] }

  ghost predicate Fifo(c: Chan, g: Config)
    requires g.size > 0
  {
    && TakenNow(c) + HeldNow(c) + Chunks(Crossed(c), g.size) <= AcceptedNow(c)
    && (c.up ==>
          && Tail(Crossed(c) + Remainder(c), g.size) == []
          && AcceptedNow(c) ==
             TakenNow(c) + HeldNow(c) + Chunks(Crossed(c) + Remainder(c), g.size) + UnsentNow(c))
  }

  lemma FifoNow(c: Chan, g: Config)
    requires WellFormed(c, g) && Aligned(c, g) && Inv(Abs(c, g))
    ensures Fifo(c, g)
  {
    hide Chunks, Tail;
    assert TakenNow(c) + HeldNow(c) == c.taken + Held(c.pull);
    assert Passed(Abs(c, g)) == TakenNow(c) + HeldNow(c) + Chunks(Crossed(c), g.size);
    if c.up {
      if c.send.Some? {
        var s := c.send.value;
        AppendBytes(Crossed(c), Remainder(c), g.size);
        assert s.msg[..s.done] + s.msg[s.done..] == s.msg;
      } else {
        assert Crossed(c) + Remainder(c) == Crossed(c);
      }
    }
  }

  /** Over every interleaving of both clocks, of partial sends and reads, of EAGAIN, EINTR and
      disconnections: words are taken in the order they were accepted, and while the connection is up
      each accepted word is in exactly one place. */
  lemma {:induction false} ChannelIsFifo(q: Msg, data: Msg, es: seq<Step>, g: Config)
    requires g.size > 0
    ensures var c := Run(Initial(q, data), es, g);
            Aligned(c, g) && Inv(Abs(c, g)) && Fifo(c, g)
  {
    hide Chunks, Tail, Fifo, ReadyValid.Inv;
    if es == [] {
      EmptyStream(g.size);
      assert Crossed(Initial(q, data)) == [];
      EmptyLink(q, data);
    } else {
      ChannelIsFifo(q, data, es[..|es| - 1], g);
      var m := Run(Initial(q, data), es[..|es| - 1], g);
      Refines(m, es[|es| - 1], g);
      InvRun(Abs(m, g), Image(m, es[|es| - 1], g), g.delays);
    }
    FifoNow(Run(Initial(q, data), es, g), g);
  }

  lemma EmptyLink(q: Msg, data: Msg)
    ensures Inv(Fresh(q, data))
  {
  }

  // ---- no deadlock inside a message ----

  function Left(c: Chan, g: Config): (n: int)
  {
    (if c.send.Some? then |c.send.value.msg| - c.send.value.done else 0)
    + (if c.read.Some? then g.size - |c.read.value.got| else 0)
  }

  /** On a connection that is up, a reader waiting in the middle of a message on an empty stream has
      got exactly what a sender in the middle of that same message has sent; a sender facing a full
      stream leaves bytes for the next read. */
  lemma NoDeadlockInsideMessage(c: Chan, g: Config)
    requires WellFormed(c, g) && Aligned(c, g) && c.up
    ensures Got(c) != [] && c.stream == [] ==>
              && c.send.Some? && 0 < c.send.value.done < g.size
              && Got(c) == c.send.value.msg[..c.send.value.done]
              && forall a: Answer :: a.Moved? && g.capacity > 0 ==> SendAnswer(a, c, g.capacity).Moved?
    ensures g.capacity > 0 && |c.stream| >= g.capacity ==> forall a: Answer :: a.Moved? ==> ReadAnswer(a, c).Moved?
  {
    if Got(c) != [] && c.stream == [] {
      assert Crossed(c) == Got(c);
      assert Tail(Got(c), g.size) == Got(c);
    }
  }

  /** A call that moves bytes brings both processes closer to the end of their message; no other
      call of a process in a message takes it further away. */
  lemma TransferDecreases(c: Chan, e: Step, g: Config)
    requires WellFormed(c, g) && (e.SendCall? || e.ReadCall?)
    ensures Left(Next(c, e, g), g) <= Left(c, g)
    ensures Next(c, e, g).stream != c.stream && c.up ==> Left(Next(c, e, g), g) < Left(c, g)
    ensures e.SendCall? && c.send.Some? && e.a.Moved? && c.up && |c.stream| < g.capacity ==>
              Left(Next(c, e, g), g) < Left(c, g)
    ensures e.ReadCall? && c.read.Some? && e.a.Moved? && c.stream != [] ==> Left(Next(c, e, g), g) < Left(c, g)
  {
  }

  // ---- one edge of a module is one run of send_msg or read_msg ----

  /** What the kernel answered to the calls of the message under way, over a run of the channel: the
      byte counts are the ones that crossed. */
  function SendAnswers(c: Chan, es: seq<Step>, g: Config): (bs: seq<Answer>)
    requires WellFormed(c, g)
    decreases |es|
  {
    if es == [] || c.send.None? then []
    else
      WellFormedStep(c, es[0], g);
      (if es[0].SendCall? then [SendCrossing(c, es[0].a, g)] else []) + SendAnswers(Next(c, es[0], g), es[1..], g)
  }

  function SendCrossing(c: Chan, a: Answer, g: Config): Answer
    requires WellFormed(c, g) && c.send.Some?
  {
    var b := SendAnswer(a, c, Room(c, g));
    if b.Moved? then Moved(Clamp(b.n, Min(g.size - c.send.value.done, Room(c, g)))) else b
  }

  /** How an edge in a message ends: what the transfer comes to, the bytes that crossed in it, and the state
      the edge leaves. */
  datatype Ended = Ended(outcome: Outcome, bytes: seq<byte>, after: Chan)

  /** The result of the call that ends an edge; `done` bytes had crossed before. */
  function LastOutcome(done: nat, b: Answer): Outcome
  {
    if b.Moved? then Whole
    else match WaitAndRetry(done, b) case None => Whole case Some(o) => o
  }

  /** The bytes a step puts on the stream. */
  function Put(c: Chan, c': Chan): seq<byte>
  {
    if |c.stream| <= |c'.stream| then c'.stream[|c.stream|..] else []
  }

  /** The end of the push edge under way, once the run has got to it. */
  function SendEnd(c: Chan, es: seq<Step>, g: Config): (e: Option<Ended>)
    requires WellFormed(c, g) && c.send.Some?
    decreases |es|
  {
    if es == [] then None
    else
      WellFormedStep(c, es[0], g);
      var c' := Next(c, es[0], g);
      var put := if es[0].SendCall? then Put(c, c') else [];
      if c'.send.None? then
        if es[0].SendCall? then
          Some(Ended(LastOutcome(c.send.value.done, SendCrossing(c, es[0].a, g)), put, c'))
        else None
      else
        match SendEnd(c', es[1..], g)
        case None => None
        case Some(e) => Some(e.(bytes := put + e.bytes))
  }

  lemma {:induction false} TransferShift(done: nat, size: nat, avail: nat, b: Answer, bs: seq<Answer>, at: nat)
    requires done <= size
    ensures var x, y := Transfer(done, size, avail, [b] + bs, at + 1), Transfer(done, size, avail, bs, at);
            x.outcome == y.outcome && x.moved == y.moved
    decreases |bs| - at
  {
    if done < size {
      var a := SocketIo.Next(bs, at, avail);
      assert a == SocketIo.Next([b] + bs, at + 1, avail);
      if a.Moved? {
        var k := Clamp(a.n, Min(size - done, avail));
        TransferShift(done + k, size, avail - k, b, bs, at + 1);
      } else if WaitAndRetry(done, a).None? {
        TransferShift(done, size, avail, b, bs, at + 1);
      }
    }
  }

  /** The calls of the push edge under way are the calls of send_msg on these answers: the same result, the
      same bytes of the message, and the edge commits that result. */
  ghost predicate IsSendMsg(c: Chan, es: seq<Step>, g: Config)
    requires WellFormed(c, g) && c.send.Some? && SendEnd(c, es, g).Some?
  {
    var s, e := c.send.value, SendEnd(c, es, g).value;
    var x := Transfer(s.done, g.size, g.size - s.done, SendAnswers(c, es, g), 0);
    && e.outcome == x.outcome && |s.msg| == g.size
    && e.bytes == s.msg[s.done..x.moved]
    && e.after.push == PushCommit(c.push, s.vld, s.data, x.outcome.Whole?)
  }

  lemma LastSend(c: Chan, es: seq<Step>, g: Config)
    requires WellFormed(c, g) && c.send.Some? && SendEnd(c, es, g).Some?
    requires es[0].SendCall? && Next(c, es[0], g).send.None?
    ensures IsSendMsg(c, es, g)
  {
    hide WellFormed, Transfer, PushCommit, Next, Put, SendCrossing;
    WellFormedStep(c, es[0], g);
    SendCount(c, g);
    OneCall(c, es[0].a, g);
    TransferFirst(c.send.value.done, g.size, SendCrossing(c, es[0].a, g), SendAnswers(Next(c, es[0], g), es[1..], g));
    assert SendEnd(c, es, g).value.bytes == Put(c, Next(c, es[0], g));
  }

  lemma MoreSends(c: Chan, es: seq<Step>, g: Config)
    requires WellFormed(c, g) && c.send.Some? && SendEnd(c, es, g).Some?
    requires es[0].SendCall? && Next(c, es[0], g).send.Some?
    requires WellFormed(Next(c, es[0], g), g) && SendEnd(Next(c, es[0], g), es[1..], g).Some?
    requires IsSendMsg(Next(c, es[0], g), es[1..], g)
    ensures IsSendMsg(c, es, g)
  {
    hide WellFormed, Transfer, PushCommit, Next, Put, SendCrossing;
    var s, c' := c.send.value, Next(c, es[0], g);
    var b, bs := SendCrossing(c, es[0].a, g), SendAnswers(c', es[1..], g);
    SendCount(c, g);
    SendCount(c', g);
    OneCall(c, es[0].a, g);
    TransferFirst(s.done, g.size, b, bs);
    TransferShift(c'.send.value.done, g.size, g.size - c'.send.value.done, b, bs, 0);
    var x := Transfer(c'.send.value.done, g.size, g.size - c'.send.value.done, bs, 0);
    Slices(s.msg, s.done, c'.send.value.done, x.moved);
  }

  lemma Slices<T>(xs: seq<T>, a: nat, b: nat, c: nat)
    requires a <= b <= c <= |xs|
    ensures xs[a..b] + xs[b..c] == xs[a..c]
  {
  }

  lemma OtherThanSend(c: Chan, es: seq<Step>, g: Config)
    requires WellFormed(c, g) && c.send.Some? && SendEnd(c, es, g).Some? && !es[0].SendCall?
    requires WellFormed(Next(c, es[0], g), g) && Next(c, es[0], g).send.Some?
    requires SendEnd(Next(c, es[0], g), es[1..], g).Some? && IsSendMsg(Next(c, es[0], g), es[1..], g)
    ensures IsSendMsg(c, es, g)
  {
    hide WellFormed, Transfer, PushCommit, Next, Put, SendCrossing;
    var c' := Next(c, es[0], g);
    SendUntouched(c, es[0], g);
    assert SendAnswers(c, es, g) == [] + SendAnswers(c', es[1..], g) == SendAnswers(c', es[1..], g);
    var e := SendEnd(c', es[1..], g).value;
    assert [] + e.bytes == e.bytes;
  }

  /** Whatever the other process does in between, one push edge is one run of send_msg. */
  lemma {:induction false} EdgeIsSendMsg(c: Chan, es: seq<Step>, g: Config)
    requires WellFormed(c, g) && c.send.Some? && SendEnd(c, es, g).Some?
    ensures IsSendMsg(c, es, g)
    decreases |es|
  {
    hide WellFormed, IsSendMsg, Next, Put, SendCrossing;
    WellFormedStep(c, es[0], g);
    var c' := Next(c, es[0], g);
    if c'.send.None? {
      LastSend(c, es, g);
    } else {
      EdgeIsSendMsg(c', es[1..], g);
      if es[0].SendCall? {
        MoreSends(c, es, g);
      } else {
        OtherThanSend(c, es, g);
      }
    }
  }

  lemma SendCount(c: Chan, g: Config)
    requires WellFormed(c, g) && c.send.Some?
    ensures c.send.value.done < |c.send.value.msg| == g.size
  {
  }

  lemma SendUntouched(c: Chan, e: Step, g: Config)
    requires WellFormed(c, g) && c.send.Some? && !e.SendCall?
    ensures Next(c, e, g).send == c.send && Next(c, e, g).push == c.push
  {
  }

  /** One send() of the edge: it ends it, or leaves more to do. */
  lemma OneCall(c: Chan, a: Answer, g: Config)
    requires WellFormed(c, g) && c.send.Some?
    ensures SendAnswer(a, c, Room(c, g)).Moved? == SendCrossing(c, a, g).Moved?
    ensures var s, b, c' := c.send.value, SendCrossing(c, a, g), Next(c, SendCall(a), g);
            if b.Moved? then
              && 0 < b.n <= g.size - s.done && Put(c, c') == s.msg[s.done..s.done + b.n]
              && (c'.send.None? <==> s.done + b.n == g.size)
              && (c'.send.Some? ==> c'.send == Some(s.(done := s.done + b.n)) && c'.push == c.push)
              && (c'.send.None? ==> c'.push == PushCommit(c.push, s.vld, s.data, true))
            else
              && Put(c, c') == []
              && (c'.send.None? <==> WaitAndRetry(s.done, b).Some?)
              && (c'.send.Some? ==> c'.send == c.send && c'.push == c.push)
              && (c'.send.None? ==> c'.push == PushCommit(c.push, s.vld, s.data, false))
  {
  }

  lemma TransferFirst(done: nat, size: nat, b: Answer, bs: seq<Answer>)
    requires done < size && (b.Moved? ==> 0 < b.n <= size - done)
    ensures var x := Transfer(done, size, size - done, [b] + bs, 0);
            if b.Moved? then
              && (done + b.n == size ==> x.outcome.Whole? && x.moved == size)
              && x == Transfer(done + b.n, size, size - done - b.n, [b] + bs, 1)
            else if WaitAndRetry(done, b).Some? then
              x.outcome == WaitAndRetry(done, b).value && x.moved == done && !x.outcome.Whole?
            else x == Transfer(done, size, size - done, [b] + bs, 1)
  {
  }

  function ReadAnswers(c: Chan, es: seq<Step>, g: Config): (bs: seq<Answer>)
    requires WellFormed(c, g)
    decreases |es|
  {
    if es == [] || c.read.None? then []
    else
      WellFormedStep(c, es[0], g);
      (if es[0].ReadCall? then [ReadCrossing(c, es[0].a, g)] else []) + ReadAnswers(Next(c, es[0], g), es[1..], g)
  }

  function ReadCrossing(c: Chan, a: Answer, g: Config): Answer
    requires WellFormed(c, g) && c.read.Some?
  {
    var b := ReadAnswer(a, c);
    if b.Moved? then Moved(Clamp(b.n, Min(g.size - |c.read.value.got|, |c.stream|))) else b
  }

  /** The bytes a step takes off the stream. */
  function Taken(c: Chan, c': Chan): seq<byte>
  {
    if |c'.stream| <= |c.stream| then c.stream[..|c.stream| - |c'.stream|] else []
  }

  function ReadEnd(c: Chan, es: seq<Step>, g: Config): (e: Option<Ended>)
    requires WellFormed(c, g) && c.read.Some?
    decreases |es|
  {
    if es == [] then None
    else
      WellFormedStep(c, es[0], g);
      var c' := Next(c, es[0], g);
      var moves := es[0].ReadCall? && ReadAnswer(es[0].a, c).Moved?;
      var taken := if moves then Taken(c, c') else [];
      if c'.read.None? then
        if es[0].ReadCall? then
          Some(Ended(LastOutcome(|c.read.value.got|, ReadCrossing(c, es[0].a, g)), taken, c'))
        else None
      else
        match ReadEnd(c', es[1..], g)
        case None => None
        case Some(e) => Some(e.(bytes := taken + e.bytes))
  }

  /** One read() of the edge: it ends it, or leaves more to do. */
  lemma OneRead(c: Chan, a: Answer, g: Config)
    requires WellFormed(c, g) && c.read.Some?
    ensures ReadAnswer(a, c).Moved? == ReadCrossing(c, a, g).Moved?
    ensures var r, done, b, c' := c.read.value, |c.read.value.got|, ReadCrossing(c, a, g), Next(c, ReadCall(a), g);
            if b.Moved? then
              && 0 < b.n <= g.size - done && |Taken(c, c')| == b.n
              && (c'.read.None? <==> done + b.n == g.size)
              && (c'.read.Some? ==> c'.read == Some(r.(got := r.got + Taken(c, c'))) && c'.pull == c.pull)
              && (c'.read.None? ==> c'.pull == PullCommit(c.pull, r.rdy, Success(r.got + Taken(c, c')), g.delays))
            else
              && (c'.read.None? <==> WaitAndRetry(done, b).Some?)
              && (c'.read.Some? ==> c'.read == c.read && c'.pull == c.pull)
              && (c'.read.None? ==> c'.pull == PullCommit(c.pull, r.rdy, Fail(r.got), g.delays))
  {
  }

  lemma ReadUntouched(c: Chan, e: Step, g: Config)
    requires WellFormed(c, g) && c.read.Some? && !e.ReadCall?
    ensures Next(c, e, g).read == c.read && Next(c, e, g).pull == c.pull
  {
  }

  lemma ReadCount(c: Chan, g: Config)
    requires WellFormed(c, g) && c.read.Some?
    ensures |c.read.value.got| < g.size
  {
  }

  /** The calls of the pull edge under way are the calls of read_msg on these answers: the same result, as
      many bytes, all of them from the stream, and the edge commits them as a word if the message is whole. */
  ghost predicate IsReadMsg(c: Chan, es: seq<Step>, g: Config)
    requires WellFormed(c, g) && c.read.Some? && ReadEnd(c, es, g).Some?
  {
    var r, e := c.read.value, ReadEnd(c, es, g).value;
    var x := Transfer(|r.got|, g.size, g.size - |r.got|, ReadAnswers(c, es, g), 0);
    && e.outcome == x.outcome
    && |r.got + e.bytes| == x.moved
    && e.after.pull == PullCommit(c.pull, r.rdy,
                                  if x.outcome.Whole? then Success(r.got + e.bytes) else Fail(r.got + e.bytes), g.delays)
  }

  lemma LastRead(c: Chan, es: seq<Step>, g: Config)
    requires WellFormed(c, g) && c.read.Some? && ReadEnd(c, es, g).Some?
    requires es[0].ReadCall? && Next(c, es[0], g).read.None?
    ensures IsReadMsg(c, es, g)
  {
    hide WellFormed, Transfer, PullCommit, Next, Taken, ReadCrossing;
    WellFormedStep(c, es[0], g);
    ReadCount(c, g);
    OneRead(c, es[0].a, g);
    TransferFirst(|c.read.value.got|, g.size, ReadCrossing(c, es[0].a, g), ReadAnswers(Next(c, es[0], g), es[1..], g));
    assert c.read.value.got + [] == c.read.value.got;
  }

  lemma MoreReads(c: Chan, es: seq<Step>, g: Config)
    requires WellFormed(c, g) && c.read.Some? && ReadEnd(c, es, g).Some?
    requires es[0].ReadCall? && Next(c, es[0], g).read.Some?
    requires WellFormed(Next(c, es[0], g), g) && ReadEnd(Next(c, es[0], g), es[1..], g).Some?
    requires IsReadMsg(Next(c, es[0], g), es[1..], g)
    ensures IsReadMsg(c, es, g)
  {
    hide WellFormed, Transfer, PullCommit, Next, Taken, ReadCrossing;
    var r, c' := c.read.value, Next(c, es[0], g);
    var r' := c'.read.value;
    var b, bs := ReadCrossing(c, es[0].a, g), ReadAnswers(c', es[1..], g);
    ReadCount(c, g);
    ReadCount(c', g);
    OneRead(c, es[0].a, g);
    TransferFirst(|r.got|, g.size, b, bs);
    TransferShift(|r'.got|, g.size, g.size - |r'.got|, b, bs, 0);
    var e := ReadEnd(c', es[1..], g).value;
    var taken := if b.Moved? then Taken(c, c') else [];
    assert r'.got + e.bytes == r.got + (taken + e.bytes);
  }

  lemma OtherThanRead(c: Chan, es: seq<Step>, g: Config)
    requires WellFormed(c, g) && c.read.Some? && ReadEnd(c, es, g).Some? && !es[0].ReadCall?
    requires WellFormed(Next(c, es[0], g), g) && Next(c, es[0], g).read.Some?
    requires ReadEnd(Next(c, es[0], g), es[1..], g).Some? && IsReadMsg(Next(c, es[0], g), es[1..], g)
    ensures IsReadMsg(c, es, g)
  {
    hide WellFormed, Transfer, PullCommit, Next, Taken, ReadCrossing;
    var c' := Next(c, es[0], g);
    ReadUntouched(c, es[0], g);
    assert ReadAnswers(c, es, g) == [] + ReadAnswers(c', es[1..], g) == ReadAnswers(c', es[1..], g);
    var e := ReadEnd(c', es[1..], g).value;
    assert [] + e.bytes == e.bytes;
  }

  /** Whatever the other process does in between, one pull edge is one run of read_msg. */
  lemma {:induction false} EdgeIsReadMsg(c: Chan, es: seq<Step>, g: Config)
    requires WellFormed(c, g) && c.read.Some? && ReadEnd(c, es, g).Some?
    ensures IsReadMsg(c, es, g)
    decreases |es|
  {
    hide WellFormed, IsReadMsg, Next, Taken, ReadCrossing;
    WellFormedStep(c, es[0], g);
    var c' := Next(c, es[0], g);
    if c'.read.None? {
      LastRead(c, es, g);
    } else {
      EdgeIsReadMsg(c', es[1..], g);
      if es[0].ReadCall? {
        MoreReads(c, es, g);
      } else {
        OtherThanRead(c, es, g);
      }
    }
  }

  // ---- a message begun can always be finished ----

  /** The next useful step of a sender in a message: send if there is room, else have the peer read. */
  function SenderStep(c: Chan, g: Config): Step
  {
    if Room(c, g) > 0 then SendCall(Moved(g.size))
    else if c.read.Some? then ReadCall(Moved(g.size))
    else if !c.pull.started then PullModuleStarts
    else PullClock(true)
  }

  lemma SenderStepHelps(c: Chan, g: Config)
    requires WellFormed(c, g) && c.up && c.send.Some? && g.capacity > 0
    ensures var c' := Next(c, SenderStep(c, g), g);
            && c'.up && (c'.send.None? ==> c'.push.rdy)
            && (c'.send.Some? ==>
                  if Room(c, g) > 0 then c'.send.value.done > c.send.value.done
                  else c'.send == c.send &&
                       if c.read.Some? then |c'.stream| < |c.stream|
                       else c'.stream == c.stream &&
                            if !c.pull.started then c'.pull.started && c'.read.None?
                            else c'.pull.started && (c'.read.Some? || EdgesToCall(c'.pull) < EdgesToCall(c.pull)))
  {
  }

  /** From any state of a connection that is up, with any capacity and delays, some steps finish the
      message being sent: the edge's push returns SUCCESS. */
  lemma {:induction false} SenderCanFinish(c: Chan, g: Config) returns (es: seq<Step>)
    requires WellFormed(c, g) && c.up && c.send.Some? && g.capacity > 0
    ensures Disconnect !in es && SendEnd(c, es, g).Some? && SendEnd(c, es, g).value.outcome.Whole?
    decreases |c.send.value.msg| - c.send.value.done, |c.stream|, c.read.None?, !c.pull.started, EdgesToCall(c.pull)
  {
    var e := SenderStep(c, g);
    SenderStepHelps(c, g);
    WellFormedStep(c, e, g);
    var c' := Next(c, e, g);
    if c'.send.None? {
      return [e];
    }
    es := SenderCanFinish(c', g);
    es := [e] + es;
  }

  /** The next useful step of a reader in a message: read if there are bytes, else have the peer send. */
  function ReaderStep(c: Chan, g: Config): Step
  {
    if c.stream != [] then ReadCall(Moved(g.size)) else SendCall(Moved(g.size))
  }

  lemma ReaderStepHelps(c: Chan, g: Config)
    requires WellFormed(c, g) && c.up && c.read.Some? && g.capacity > 0 && (c.stream == [] ==> c.send.Some?)
    ensures var c' := Next(c, ReaderStep(c, g), g);
            && c'.up
            && (if c.stream != [] then c'.read.Some? ==> |Got(c')| > |Got(c)| && Got(c') != []
                else c'.read == c.read && c'.stream != [])
  {
  }

  /** The same for a message a reader has begun: its pull returns SUCCESS. */
  lemma {:induction false} ReaderCanFinish(c: Chan, g: Config) returns (es: seq<Step>)
    requires WellFormed(c, g) && Aligned(c, g) && c.up && Got(c) != [] && g.capacity > 0
    ensures Disconnect !in es && ReadEnd(c, es, g).Some? && ReadEnd(c, es, g).value.outcome.Whole?
    decreases g.size - |Got(c)|, c.stream == []
  {
    hide Aligned;
    NoDeadlockInsideMessage(c, g);
    var e := ReaderStep(c, g);
    ReaderStepHelps(c, g);
    WellFormedStep(c, e, g);
    Refines(c, e, g);
    var c' := Next(c, e, g);
    if c'.read.None? {
      return [e];
    }
    es := ReaderCanFinish(c', g);
    es := [e] + es;
  }

  // ---- everything accepted can be taken ----

  /** A state of a run whose connection is up. */
  ghost predicate Live(c: Chan, g: Config)
  {
    WellFormed(c, g) && Aligned(c, g) && Inv(Abs(c, g)) && c.up && g.capacity > 0
  }

  /** 2: a word is kept and not being sent; 1: a word is being sent; 0: neither. */
  function Stage(c: Chan): nat { if c.send.Some? then 1 else if Unsent(c.push) != [] then 2 else 0 }

  function LeftToSend(c: Chan): nat
  {
    if c.send.Some? && c.send.value.done <= |c.send.value.msg| then |c.send.value.msg| - c.send.value.done else 0
  }

  /** The pull side has nothing to do. */
  predicate PullRests(c: Chan) { c.stream == [] && c.read.None? && !c.pull.vld }

  function PullBusy(c: Chan): nat { if PullRests(c) then 0 else 1 }

  /** The next useful step: send the word kept, then have it sent, then have the pull side read and show words. */
  function DrainStep(c: Chan, g: Config): Step
  {
    match Stage(c)
    case 2 => PushClock(false, c.push.q)
    case 1 => SenderStep(c, g)
    case _ =>
      if !c.pull.started then PullModuleStarts
      else if c.read.None? then PullClock(true)
      else ReadCall(if c.stream != [] then Moved(g.size) else Again)
  }

  /** What a step of the pull side does when nothing is being sent. */
  lemma PullDrains(c: Chan, g: Config)
    requires WellFormed(c, g) && Aligned(c, g) && c.up && Stage(c) == 0 && !PullRests(c)
    ensures var c' := Next(c, DrainStep(c, g), g);
            && c'.up && c'.send == c.send && c'.push == c.push
            && (|c'.stream| < |c.stream|
                || (c'.stream == c.stream
                    && (PullRests(c')
                        || (c.read.None? && (c'.read.Some?
                                             || (!c.pull.started && c'.pull.started)
                                             || (c.pull.started && c'.pull.started
                                                 && EdgesToCall(c'.pull) < EdgesToCall(c.pull)))))))
  {
    if c.read.Some? && c.stream == [] {
      assert Crossed(c) == Got(c) && Tail(Got(c), g.size) == Got(c);
    }
  }

  lemma RetryBegins(c: Chan, g: Config)
    requires WellFormed(c, g) && Stage(c) == 2
    ensures var c' := Next(c, PushClock(false, c.push.q), g);
            Stage(c') == 1 && c'.up == c.up && LeftToSend(c') == g.size
  {
  }

  lemma SenderStage(c: Chan, g: Config)
    requires WellFormed(c, g) && c.up && c.send.Some? && g.capacity > 0
    ensures var c' := Next(c, SenderStep(c, g), g);
            && c'.up
            && (Stage(c') == 0
                || (Stage(c') == 1
                    && (LeftToSend(c') < LeftToSend(c)
                        || (LeftToSend(c') == LeftToSend(c)
                            && (|c'.stream| < |c.stream|
                                || (c'.stream == c.stream != [] && c.read.None?
                                    && (c'.read.Some?
                                        || (!c.pull.started && c'.pull.started)
                                        || (c.pull.started && c'.pull.started
                                            && EdgesToCall(c'.pull) < EdgesToCall(c.pull)))))))))
  {
    hide Next;
    SenderStepHelps(c, g);
    SendCount(c, g);
    WellFormedStep(c, SenderStep(c, g), g);
    SenderKeepsStart(c, g);
    if Next(c, SenderStep(c, g), g).send.Some? {
      SendCount(Next(c, SenderStep(c, g), g), g);
    }
  }

  lemma SenderKeepsStart(c: Chan, g: Config)
    requires WellFormed(c, g)
    ensures c.pull.started ==> Next(c, SenderStep(c, g), g).pull.started
    ensures g.capacity > 0 && Room(c, g) == 0 ==> c.stream != []
  {
  }

  /** No step but an edge that offers a new word adds to the words accepted. */
  lemma AcceptedKept(c: Chan, e: Step, g: Config)
    requires WellFormed(c, g) && (e.PushClock? ==> !e.vld)
    ensures AcceptedNow(Next(c, e, g)) == AcceptedNow(c)
  {
  }

  /** An edge with a word on offer and the module ready accepts that word. */
  lemma OfferIsAccepted(c: Chan, data: Msg, g: Config)
    requires WellFormed(c, g) && c.send.None? && c.push.rdy && |data| == g.size
    ensures AcceptedNow(Next(c, PushClock(true, data), g)) == AcceptedNow(c) + [data]
  {
  }

  lemma LiveStep(c: Chan, e: Step, g: Config)
    requires Live(c, g) && Next(c, e, g).up
    ensures Live(Next(c, e, g), g)
  {
    hide Aligned, Abs, ReadyValid.Inv, Image, Next;
    WellFormedStep(c, e, g);
    Refines(c, e, g);
    InvRun(Abs(c, g), Image(c, e, g), g.delays);
  }

  lemma {:induction false} RunFirst(c: Chan, e: Step, es: seq<Step>, g: Config)
    requires WellFormed(c, g)
    ensures WellFormed(Next(c, e, g), g) && Run(c, [e] + es, g) == Run(Next(c, e, g), es, g)
    decreases |es|
  {
    hide Next, WellFormed;
    WellFormedStep(c, e, g);
    var all := [e] + es;
    if es == [] {
      assert all[..0] == [];
      assert Run(c, all[..0], g) == c;
    } else {
      RunFirst(c, e, es[..|es| - 1], g);
      assert all[..|all| - 1] == [e] + es[..|es| - 1];
    }
  }

  /** From every state of a run whose connection is up, with any capacity and delays, some steps have the consumer
      take every word accepted so far, the one being sent and the one kept included. */
  lemma {:induction false} CanDrain(c: Chan, g: Config) returns (es: seq<Step>)
    requires Live(c, g)
    ensures WellFormed(c, g) && Disconnect !in es
    ensures TakenNow(Run(c, es, g)) == AcceptedNow(Run(c, es, g)) == AcceptedNow(c)
    decreases if Stage(c) == 2 then 2 else if Stage(c) == 1 then 1 else 0, LeftToSend(c), |c.stream|, PullBusy(c),
      c.read.None?, !c.pull.started, EdgesToCall(c.pull)
  {
    hide Next, Aligned, Abs, ReadyValid.Inv;
    if Stage(c) == 0 && PullRests(c) {
      es := [];
      NothingOnTheWay(c, g);
    } else {
      var e := DrainStep(c, g);
      if Stage(c) == 2 {
        RetryBegins(c, g);
      } else if Stage(c) == 1 {
        SenderStage(c, g);
      } else {
        PullDrains(c, g);
      }
      LiveStep(c, e, g);
      AcceptedKept(c, e, g);
      var rest := CanDrain(Next(c, e, g), g);
      es := [e] + rest;
      RunFirst(c, e, rest, g);
    }
  }

  lemma NothingOnTheWay(c: Chan, g: Config)
    requires Live(c, g) && Stage(c) == 0 && PullRests(c)
    ensures TakenNow(c) == AcceptedNow(c)
  {
    hide Aligned, Abs, ReadyValid.Inv, Chunks, Tail;
    FifoNow(c, g);
    EmptyStream(g.size);
    assert Crossed(c) + Remainder(c) == [];
  }
}
