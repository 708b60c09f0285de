/** The push and pull modules of a channel (src/core/multisim_*_push.sv, multisim_*_pull.sv) as
    registers that read the old state at a clock edge and commit at its end, and a channel between
    them seen word by word: each DPI call either passes a whole word or nothing. */
module ReadyValid {
  import opened Wrappers

  /** multisim_client_push and multisim_server_push. */
  datatype PushRegs<W> = PushRegs(started: bool, rdy: bool, q: W)

  /** multisim_client_pull and multisim_server_pull: `wait` is the number of edges left in the
      `repeat (dpi_delay)` loop, 0 outside of it; `calling` is set inside a DPI call that takes cycles
      (ZeBu). */
  datatype PullRegs<W> = PullRegs(started: bool, vld: bool, data: W, delay: int, wait: nat, calling: bool)

  datatype Delays = Delays(inactive: int, active: int)

  function PushStart<W>(s: PushRegs<W>): PushRegs<W> { if s.started then s else s.(started := true, rdy := true) }

  /** The word an edge hands to the push DPI. */
  function PushOffers<W>(s: PushRegs<W>, vld: bool, data: W): Option<W>
  {
    if vld && s.rdy then Some(data)
    else if s.started && !s.rdy then Some(s.q)
    else None
  }

  /** The registers after an edge whose DPI call, if any, returned `ok`. */
  function PushCommit<W>(s: PushRegs<W>, vld: bool, data: W, ok: bool): PushRegs<W>
  {
    if vld && s.rdy then s.(rdy := ok, q := data)
    else if s.started && !s.rdy then s.(rdy := ok)
    else s
  }

  /** The consumer takes the word on show at this edge. */
  predicate PullTakes<W>(s: PullRegs<W>, rdy: bool) { s.vld && rdy }

  predicate PullIdles<W>(s: PullRegs<W>, rdy: bool)
  {
    !s.started || (!s.calling && s.wait == 0 && s.vld && !rdy)
  }

  /** This edge is in the pull DPI call. */
  predicate PullCalls<W>(s: PullRegs<W>, rdy: bool)
  {
    !PullIdles(s, rdy) && (s.calling || (if s.wait == 0 then s.delay <= 0 else s.wait == 1))
  }

  /** Edges until the pull module, its consumer ready, is in its DPI call. */
  function EdgesToCall<W>(s: PullRegs<W>): nat
  {
    if s.calling then 0 else if s.wait == 0 then (if s.delay <= 0 then 0 else s.delay) else s.wait - 1
  }

  /** What the DPI call does at an edge: it goes on, or it returns FAIL or SUCCESS with `w` in its
      output. */
  datatype Return<W> = Pending | Fail(w: W) | Success(w: W)

  /** The registers after an edge whose DPI call, if any, gives `ret`. */
  function PullCommit<W>(s: PullRegs<W>, rdy: bool, ret: Return<W>, d: Delays): PullRegs<W>
  {
    if PullIdles(s, rdy) then s
    else if PullCalls(s, rdy) then
      match ret
      case Pending => s.(vld := false, wait := 0, calling := true)
      case Fail(w) => s.(vld := false, data := w, delay := d.inactive, wait := 0, calling := false)
      case Success(w) => s.(vld := true, data := w, delay := d.active, wait := 0, calling := false)
    else s.(vld := false, wait := if s.wait == 0 then s.delay else s.wait - 1)
  }

  function PullReset<W>(w: W): PullRegs<W> { PullRegs(false, false, w, 0, 0, false) }

  predicate PullOk<W>(s: PullRegs<W>) { s.vld ==> s.started && s.wait == 0 && !s.calling }

  /** A channel: push module, words in flight, pull module, and what both interfaces have seen. */
  datatype Link<W> = Link(push: PushRegs<W>, fifo: seq<W>, pull: PullRegs<W>, up: bool,
                          accepted: seq<W>, taken: seq<W>)

  /** The start of either module, a push edge whose call would succeed or not (a call that takes cycles
      fails until it is done), a pull edge whose call would find a word, find none, or go on, the
      connection going down, and a connection that is down losing its words. */
  datatype Event<W> =
    | StartPush
    | StartPull
    | PushEdge(vld: bool, data: W, ok: bool)
    | PullEdge(rdy: bool, ret: Return<W>)
    | HangUp
    | Lose

  function Fresh<W>(q: W, data: W): Link<W>
  {
    Link(PushRegs(false, false, q), [], PullReset(data), true, [], [])
  }

  /** A call returns SUCCESS only with the next word on the way. */
  function FromFifo<W>(ret: Return<W>, fifo: seq<W>): (r: Return<W>)
    ensures r.Success? ==> fifo != [] && r.w == fifo[0]
  {
    match ret
    case Pending => Pending
    case Fail(w) => Fail(w)
    case Success(w) => if fifo == [] then Fail(w) else Success(fifo[0])
  }

  function Next<W>(l: Link<W>, e: Event<W>, d: Delays): Link<W>
  {
    match e
    case StartPush => l.(push := PushStart(l.push))
    case StartPull => l.(pull := l.pull.(started := true))
    case PushEdge(vld, data, ok) =>
      var offered := PushOffers(l.push, vld, data);
      var sent := offered.Some? && ok && l.up;
      l.(push := PushCommit(l.push, vld, data, sent),
         fifo := if sent then l.fifo + [offered.value] else l.fifo,
         accepted := if vld && l.push.rdy then l.accepted + [data] else l.accepted)
    case PullEdge(rdy, ret) =>
      l.(pull := PullCommit(l.pull, rdy, FromFifo(ret, l.fifo), d),
         fifo := if PullCalls(l.pull, rdy) && FromFifo(ret, l.fifo).Success? then l.fifo[1..] else l.fifo,
         taken := if PullTakes(l.pull, rdy) then l.taken + [l.pull.data] else l.taken)
    case HangUp => l.(up := false)
    case Lose => if l.up then l else l.(fifo := [])
  }

  function Run<W>(l: Link<W>, es: seq<Event<W>>, d: Delays): Link<W>
  {
    if es == [] then l else Next(Run(l, es[..|es| - 1], d), es[|es| - 1], d)
  }

  function Held<W>(s: PullRegs<W>): seq<W> { if s.vld then [s.data] else [] }

  function Unsent<W>(s: PushRegs<W>): seq<W> { if s.started && !s.rdy then [s.q] else [] }

  /** The words that have crossed the stream or are on it. */
  function Passed<W>(l: Link<W>): seq<W> { l.taken + Held(l.pull) + l.fifo }

  /** What every step keeps: words come out in the order they were accepted, and while the
      connection is up each accepted word is in exactly one place. */
  ghost predicate Inv<W(!new)>(l: Link<W>)
  {
    && (l.push.rdy ==> l.push.started)
    && PullOk(l.pull)
    && Passed(l) <= l.accepted
    && (l.up ==> l.accepted == Passed(l) + Unsent(l.push))
  }

  lemma InvPush<W(!new)>(l: Link<W>, vld: bool, data: W, ok: bool, d: Delays)
    requires Inv(l)
    ensures Inv(Next(l, PushEdge(vld, data, ok), d))
  {
    var l' := Next(l, PushEdge(vld, data, ok), d);
    if PushOffers(l.push, vld, data).Some? && ok && l.up {
      var w := PushOffers(l.push, vld, data).value;
      assert Passed(l') == Passed(l) + [w];
    } else {
      assert Passed(l') == Passed(l);
    }
  }

  lemma InvPull<W(!new)>(l: Link<W>, rdy: bool, ret: Return<W>, d: Delays)
    requires Inv(l)
    ensures Inv(Next(l, PullEdge(rdy, ret), d))
  {
    var l' := Next(l, PullEdge(rdy, ret), d);
    assert Passed(l') == Passed(l);
  }

  lemma InvStep<W(!new)>(l: Link<W>, e: Event<W>, d: Delays)
    requires Inv(l)
    ensures Inv(Next(l, e, d))
  {
    match e
    case PushEdge(vld, data, ok) => InvPush(l, vld, data, ok, d);
    case PullEdge(rdy, ret) => InvPull(l, rdy, ret, d);
    case _ =>
      assert e.Lose? && !l.up ==> Passed(Next(l, e, d)) == l.taken + Held(l.pull);
  }

  lemma {:induction false} InvRun<W(!new)>(l: Link<W>, es: seq<Event<W>>, d: Delays)
    requires Inv(l)
    ensures Inv(Run(l, es, d))
  {
    if es != [] {
      InvRun(l, es[..|es| - 1], d);
      InvStep(Run(l, es[..|es| - 1], d), es[|es| - 1], d);
    }
  }

  // ---- the handshake of a pull module ----

  /** A pull module with the words its consumer took and the words its successful calls returned. */
  datatype Puller<W> = Puller(regs: PullRegs<W>, taken: seq<W>, got: seq<W>)

  /** Each edge is the consumer's ready and what the DPI call gives. */
  function PullEdges<W>(p: Puller<W>, es: seq<(bool, Return<W>)>, d: Delays): Puller<W>
  {
    if es == [] then p
    else
      var m, e := PullEdges(p, es[..|es| - 1], d), es[|es| - 1];
      Puller(PullCommit(m.regs, e.0, e.1, d),
             if PullTakes(m.regs, e.0) then m.taken + [m.regs.data] else m.taken,
             if PullCalls(m.regs, e.0) && e.1.Success? then m.got + [e.1.w] else m.got)
  }

  /** For every ready pattern, every delay parameter and calls of any length: a word shown valid stays,
      with the same data, until it is taken; the words taken are the words pulled but the one shown. */
  lemma {:induction false} PullHandshake<W(!new)>(p: Puller<W>, es: seq<(bool, Return<W>)>, d: Delays)
    requires PullOk(p.regs) && p.got == p.taken + Held(p.regs)
    ensures var q := PullEdges(p, es, d);
            && PullOk(q.regs)
            && q.got == q.taken + Held(q.regs)
            && (p.regs.vld && (forall e :: e in es ==> !e.0) ==> q.regs == p.regs)
  {
    if es != [] {
      var es' := es[..|es| - 1];
      PullHandshake(p, es', d);
      assert forall e :: e in es' ==> e in es;
      var m, e := PullEdges(p, es', d), es[|es| - 1];
      assert e in es;
      assert PullEdges(p, es, d).taken == if PullTakes(m.regs, e.0) then m.taken + [m.regs.data] else m.taken;
    }
  }

  /** The registers after edges with these readies, a call that begins going on. */
  function PullEdgesOn<W>(s: PullRegs<W>, rdys: seq<bool>, d: Delays): PullRegs<W>
  {
    if rdys == [] then s else PullCommit(PullEdgesOn(s, rdys[..|rdys| - 1], d), rdys[|rdys| - 1], Pending, d)
  }

  lemma {:induction false} InDelay<W(!new)>(s: PullRegs<W>, rdys: seq<bool>, d: Delays)
    requires s.started && s.wait == 0 && !s.calling && 0 < |rdys| <= s.delay && (s.vld ==> rdys[0])
    ensures PullEdgesOn(s, rdys, d) == s.(vld := false, wait := s.delay - |rdys| + 1)
  {
    var front := rdys[..|rdys| - 1];
    if front == [] {
      assert PullEdgesOn(s, front, d) == s;
    } else {
      InDelay(s, front, d);
    }
  }

  /** The delay parameters: once a call has returned, and its word, if any, has been taken, the next call
      comes exactly ACTIVE edges after a success and INACTIVE edges after a failure, at once if that is not
      positive, and whatever ready does in between. */
  lemma CallSpacing<W(!new)>(s: PullRegs<W>, rdy: bool, ret: Return<W>, rdys: seq<bool>, d: Delays, k: nat)
    requires s.started && PullCalls(s, rdy) && !ret.Pending? && k < |rdys| && (ret.Success? ==> rdys[0])
    requires var n := if ret.Success? then d.active else d.inactive; k == 0 || k <= n
    ensures var n := if ret.Success? then d.active else d.inactive;
            PullCalls(PullEdgesOn(PullCommit(s, rdy, ret, d), rdys[..k], d), rdys[k]) <==> (k == 0 && n <= 0) || k == n
  {
    var t := PullCommit(s, rdy, ret, d);
    if k == 0 {
      assert PullEdgesOn(t, rdys[..0], d) == t;
    } else {
      InDelay(t, rdys[..k], d);
    }
  }

  // ---- everything can be taken ----

  /** A word on show or on the way, and edges until the next call. */
  function ToTake<W>(l: Link<W>): nat { 2 * |l.fifo| + (if l.pull.vld then 1 else 0) }

  /** An edge of the pull module, its consumer ready and its call successful if there is a word, brings the words
      closer to the consumer. */
  lemma PullEdgeHelps<W(!new)>(l: Link<W>, w: W, d: Delays)
    requires Inv(l) && l.pull.started && ToTake(l) > 0
    ensures var l' := Next(l, PullEdge(true, Success(w)), d);
            && l'.pull.started && l'.up == l.up && l'.push == l.push && l'.accepted == l.accepted
            && (ToTake(l') < ToTake(l) || (ToTake(l') == ToTake(l) && EdgesToCall(l'.pull) < EdgesToCall(l.pull)))
  {
  }

  /** An edge of a push module with a word that it keeps sends that word, if the call succeeds. */
  lemma RetryHelps<W(!new)>(l: Link<W>, data: W, d: Delays)
    requires Inv(l) && l.up && Unsent(l.push) != []
    ensures var l' := Next(l, PushEdge(false, data, true), d);
            && l' == l.(push := l.push.(rdy := true), fifo := l.fifo + [l.push.q])
            && Unsent(l'.push) == []
  {
  }

  lemma {:induction false} RunAppend<W>(l: Link<W>, es: seq<Event<W>>, fs: seq<Event<W>>, d: Delays)
    ensures Run(l, es + fs, d) == Run(Run(l, es, d), fs, d)
    decreases |fs|
  {
    hide Next;
    if fs == [] {
      assert es + fs == es;
    } else {
      RunAppend(l, es, fs[..|fs| - 1], d);
      assert (es + fs)[..|es + fs| - 1] == es + fs[..|fs| - 1];
    }
  }

  lemma RunOne<W>(l: Link<W>, e: Event<W>, d: Delays)
    ensures Run(l, [e], d) == Next(l, e, d)
  {
    hide Next;
    assert [e][..0] == [];
  }

  /** From every state of a connection that is up, whatever the delays, some edges, after the start of the pull
      module, have the consumer take every word accepted so far. */
  lemma {:induction false} CanDrain<W(!new)>(l: Link<W>, w: W, d: Delays) returns (es: seq<Event<W>>)
    requires Inv(l) && l.up
    ensures var l' := Run(l, es, d);
            && Inv(l') && l'.taken == l'.accepted == l.accepted && Unsent(l'.push) == [] && ToTake(l') == 0
    decreases !l.pull.started, Unsent(l.push) != [], ToTake(l), EdgesToCall(l.pull)
  {
    hide Inv, Next;
    if l.pull.started && Unsent(l.push) == [] && ToTake(l) == 0 {
      NothingLeft(l);
      es := [];
    } else {
      var e := if !l.pull.started then StartPull
               else if Unsent(l.push) != [] then PushEdge(false, w, true)
               else PullEdge(true, Success(w));
      if !l.pull.started {
        StartHelps(l, d);
      } else if Unsent(l.push) != [] {
        RetryHelps(l, w, d);
      } else {
        PullEdgeHelps(l, w, d);
      }
      InvStep(l, e, d);
      var rest := CanDrain(Next(l, e, d), w, d);
      es := [e] + rest;
      RunOne(l, e, d);
      RunAppend(l, [e], rest, d);
    }
  }

  lemma StartHelps<W(!new)>(l: Link<W>, d: Delays)
    ensures Next(l, StartPull, d) == l.(pull := l.pull.(started := true))
    ensures var p := Next(l, StartPush, d).push; p.started && (!l.push.started ==> p.rdy && p.q == l.push.q)
  {
  }

  lemma NothingLeft<W(!new)>(l: Link<W>)
    requires Inv(l) && l.up && Unsent(l.push) == [] && ToTake(l) == 0
    ensures l.taken == l.accepted
  {
  }
}
