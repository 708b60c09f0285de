/** A server channel over successive clients: what each of them receives from a push module
    (src/core/multisim_server_push.sv over multisim_server.cpp), and what the pulls return of what
    each of them sends. */
module Clients {
  import opened Wrappers
  import opened Messages
  import opened Numbers
  import opened SocketIo
  import opened ReadyValid
  import opened Host

  /** The last call on this connection was answered by an end of stream or a permanent error. */
  predicate HungUp(c: Conn)
  {
    c.at > 0 && (c.at > |c.peer.answers| || c.peer.answers[c.at - 1].Eof? || c.peer.answers[c.at - 1].Broken?)
  }

  /** Every accepted connection, in accept order. */
  function Conns(s: Service): seq<Conn>
  {
    s.closed + (if s.conn.Some? then [s.conn.value] else [])
  }

  /** The whole messages the clients receive, client after client. */
  function Received(cs: seq<Conn>, size: nat): (ms: seq<Msg>)
    requires size > 0
  {
    if cs == [] then [] else Received(cs[..|cs| - 1], size) + Chunks(cs[|cs| - 1].sent, size)
  }

  datatype PushSide = PushSide(svc: Service, push: PushRegs<Msg>, accepted: seq<Msg>)

  /** At an edge with `done` unset the call of the DPI, which takes cycles on ZeBu, has not come back yet. */
  datatype PushEvent = Start | Arrive(viaUnix: bool, peer: Peer) | Edge(vld: bool, data: Msg, done: bool, luck: Luck)

  function Joined(s: Service, viaUnix: bool, p: Peer): Service
  {
    if viaUnix then s.(unix := s.unix + [p]) else s.(tcp := s.tcp + [p])
  }

  function NextPush(s: PushSide, e: PushEvent): PushSide
  {
    match e
    case Start => s.(push := PushStart(s.push))
    case Arrive(viaUnix, peer) => s.(svc := Joined(s.svc, viaUnix, peer))
    case Edge(vld, data, done, luck) =>
      var accepted := if vld && s.push.rdy then s.accepted + [data] else s.accepted;
      match PushOffers(s.push, vld, data)
      case None => s
      case Some(msg) =>
        var (svc, ok) := if done then Push(s.svc, msg, luck) else (s.svc, false);
        PushSide(svc, PushCommit(s.push, vld, data, ok), accepted)
  }

  function RunPush(s: PushSide, es: seq<PushEvent>): PushSide
  {
    if es == [] then s else NextPush(RunPush(s, es[..|es| - 1]), es[|es| - 1])
  }

  ghost predicate Sized(es: seq<PushEvent>, size: nat)
  {
    forall e :: e in es && e.Edge? ==> |e.data| == size
  }

  /** The unfinished message of closed connection `i`, if any, is the beginning of the next accepted
      word, and the connection is dead. */
  ghost predicate CutShort(s: PushSide, size: nat, i: nat)
    requires size > 0 && i < |s.svc.closed|
  {
    var n := |Received(s.svc.closed[..i + 1], size)|;
    var tail := Tail(s.svc.closed[i].sent, size);
    tail != [] ==> HungUp(s.svc.closed[i]) && n < |s.accepted| && tail <= s.accepted[n]
  }

  /** Never a word skipped, never one received twice. */
  ghost predicate PushInv(s: PushSide, size: nat)
    requires size > 0
  {
    && (s.push.rdy ==> s.push.started)
    && (s.push.started && !s.push.rdy ==> |s.push.q| == size)
    && s.accepted == Received(Conns(s.svc), size) + Unsent(s.push)
    && (s.svc.conn.Some? ==> Tail(s.svc.conn.value.sent, size) == [])
    && forall i: nat :: i < |s.svc.closed| ==> CutShort(s, size, i)
  }

  lemma ReceivedSnoc(cs: seq<Conn>, c: Conn, size: nat)
    requires size > 0
    ensures Received(cs + [c], size) == Received(cs, size) + Chunks(c.sent, size)
  {
    assert (cs + [c])[..|cs|] == cs;
  }

  /** Sending a message on an aligned stream either completes it, or leaves a proper prefix of it,
      which is empty unless the connection hung up. */
  lemma SendAligned(c: Conn, msg: Msg, size: nat)
    requires size > 0 && |msg| == size && Tail(c.sent, size) == []
    ensures var x := SendOn(c, msg);
            var sent := c.sent + msg[..x.moved];
            && (x.outcome.Whole? ==> Chunks(sent, size) == Chunks(c.sent, size) + [msg] && Tail(sent, size) == [])
            && (!x.outcome.Whole? ==> Chunks(sent, size) == Chunks(c.sent, size) && Tail(sent, size) == msg[..x.moved])
            && (!x.outcome.Whole? && x.moved > 0 ==> x.outcome.Closed? && HungUp(c.(at := x.at)))
  {
    hide Chunks, Tail, Transfer;
    var x := SendOn(c, msg);
    TransferContract(0, size, size, c.peer.answers, c.at);
    AppendBytes(c.sent, msg[..x.moved], size);
    if x.outcome.Closed? {
      ClosedMeansHungUp(0, size, size, c.peer.answers, c.at);
    }
    assert Tail(c.sent, size) + msg[..x.moved] == msg[..x.moved];
    assert x.outcome.Whole? ==> msg[..x.moved] == msg;
  }

  lemma {:induction false} ClosedMeansHungUp(done: nat, size: nat, avail: nat, answers: seq<Answer>, at: nat)
    requires done <= size && Transfer(done, size, avail, answers, at).outcome.Closed?
    requires avail >= size - done
    ensures var x := Transfer(done, size, avail, answers, at);
            x.at > 0 && (x.at > |answers| || answers[x.at - 1].Eof? || answers[x.at - 1].Broken?)
    decreases |answers| - at
  {
    var a := SocketIo.Next(answers, at, avail);
    if a.Moved? {
      var k := Clamp(a.n, Min(size - done, avail));
      ClosedMeansHungUp(done + k, size, avail - k, answers, at + 1);
    } else if WaitAndRetry(done, a).None? {
      ClosedMeansHungUp(done, size, avail, answers, at + 1);
    }
  }

  /** The connections of a service after it may have accepted a client: nothing was sent on a new one. */
  lemma ConnectedReceives(s: Service, luck: Luck, size: nat)
    requires size > 0
    requires s.conn.Some? ==> Tail(s.conn.value.sent, size) == []
    ensures var t := Connected(s, luck);
            && Received(Conns(t), size) == Received(Conns(s), size)
            && (t.conn.Some? ==> Tail(t.conn.value.sent, size) == []
                                 && Received(Conns(t), size) == Received(s.closed, size) + Chunks(t.conn.value.sent, size))
  {
    var t := Connected(s, luck);
    assert s.conn.None? ==> Conns(s) == s.closed;
    if t.conn.Some? {
      ReceivedSnoc(s.closed, t.conn.value, size);
    }
  }

  /** Pushing a message on an open, aligned connection. */
  lemma PushOnOpen(s: Service, msg: Msg, size: nat)
    requires size > 0 && |msg| == size && s.conn.Some? && Tail(s.conn.value.sent, size) == []
    ensures var r := PushOn(s, msg);
            && Received(Conns(r.0), size) == Received(Conns(s), size) + (if r.1 then [msg] else [])
            && (r.0.conn.Some? ==> Tail(r.0.conn.value.sent, size) == [] && r.0.closed == s.closed)
            && (r.0.conn.None? ==> !r.1 && exists c :: r.0.closed == s.closed + [c] && EndsIn(c, msg, size))
  {
    hide Chunks, Tail, Transfer, Received;
    var c := s.conn.value;
    SendAligned(c, msg, size);
    var x := SendOn(c, msg);
    var c' := c.(at := x.at, sent := c.sent + msg[..x.moved]);
    ReceivedSnoc(s.closed, c, size);
    ReceivedSnoc(s.closed, c', size);
    var r := PushOn(s, msg);
    assert Conns(s) == s.closed + [c] && Conns(r.0) == s.closed + [c'];
    if r.0.conn.None? {
      assert EndsIn(c', msg, size);
    }
  }

  /** The connection was closed inside message `msg` and is dead, or between two messages. */
  ghost predicate EndsIn(c: Conn, msg: Msg, size: nat)
    requires size > 0
  {
    Tail(c.sent, size) <= msg && (Tail(c.sent, size) != [] ==> HungUp(c))
  }

  /** One call of the push DPI. */
  lemma PushOnce(s: Service, msg: Msg, luck: Luck, size: nat)
    requires size > 0 && |msg| == size
    requires s.conn.Some? ==> Tail(s.conn.value.sent, size) == []
    ensures var r := Push(s, msg, luck);
            && Received(Conns(r.0), size) == Received(Conns(s), size) + (if r.1 then [msg] else [])
            && (r.0.conn.Some? ==> Tail(r.0.conn.value.sent, size) == [])
            && (r.0.closed == s.closed
                || (!r.1 && r.0.conn.None? && exists c :: r.0.closed == s.closed + [c] && EndsIn(c, msg, size)))
  {
    hide Chunks, Tail, Transfer, Received, PushOn, EndsIn, AcceptNew;
    ConnectedReceives(s, luck, size);
    var m := Connected(s, luck);
    if m.conn.Some? {
      PushOnOpen(m, msg, size);
    }
  }

  /** The connection takes a message of `size` bytes: the kernel starts it at once and pays for all of it before
      it hangs up. */
  ghost predicate Takes(c: Conn, size: nat)
  {
    c.at < |c.peer.answers| && c.peer.answers[c.at].Moved? && PaysFor(c.peer.answers, c.at, size)
  }

  /** A push succeeds exactly if there is a connection, open already or accepted now, and it takes the message. */
  lemma PushSucceedsIff(s: Service, msg: Msg, luck: Luck)
    requires msg != []
    ensures Push(s, msg, luck).1 <==>
            Connected(s, luck).conn.Some? && Takes(Connected(s, luck).conn.value, |msg|)
  {
    hide Transfer, AcceptNew, PaysFor;
    var t := Connected(s, luck);
    if t.conn.Some? {
      var c := t.conn.value;
      TransferWholeIff(0, |msg|, |msg|, c.peer.answers, c.at);
      if PaysFor(c.peer.answers, c.at, |msg|) {
        PayingIsAnswering(c.peer.answers, c.at, |msg|);
      }
    }
  }

  lemma PayingIsAnswering(answers: seq<Answer>, at: nat, need: nat)
    requires need > 0 && PaysFor(answers, at, need)
    ensures at < |answers|
  {
    var k :| at <= k <= |answers| && NoHangUp(answers, at, k) && Offered(answers, at, k) >= need;
  }

  /** A transfer fails, with no byte moved, exactly on its first answer. */
  lemma FailedAtOnce(size: nat, avail: nat, answers: seq<Answer>, at: nat)
    requires size > 0
    ensures var x, a := Transfer(0, size, avail, answers, at), SocketIo.Next(answers, at, avail);
            && (x.outcome.Failed? <==> a.Again? || a.Interrupted? || a.Broken?)
            && (x.outcome.Failed? ==> x.outcome == WaitAndRetry(0, a).value && x.at == at + 1 && x.moved == 0)
  {
    var a := SocketIo.Next(answers, at, avail);
    if a.Moved? {
      var k := Clamp(a.n, Min(size, avail));
      TransferContract(k, size, avail - k, answers, at + 1);
    }
  }

  /** A whole message ends with an answer that moves bytes. */
  lemma {:induction false} WholeEndsMoving(done: nat, size: nat, avail: nat, answers: seq<Answer>, at: nat)
    requires done < size && Transfer(done, size, avail, answers, at).outcome.Whole?
    ensures var x := Transfer(done, size, avail, answers, at);
            0 < x.at <= |answers| && answers[x.at - 1].Moved?
    decreases |answers| - at
  {
    var a := SocketIo.Next(answers, at, avail);
    if a.Moved? {
      var k := Clamp(a.n, Min(size - done, avail));
      if done + k < size {
        WholeEndsMoving(done + k, size, avail - k, answers, at + 1);
      }
    } else {
      WholeEndsMoving(done, size, avail, answers, at + 1);
    }
  }

  /** A push closes a connection that has not hung up exactly if the first answer to it is an interruption. */
  lemma PushDropsLiveIff(s: Service, msg: Msg, luck: Luck)
    requires msg != []
    ensures var t, u := Connected(s, luck), Push(s, msg, luck).0;
            (t.conn.Some? && u.conn.None? && u.closed != [] && !HungUp(u.closed[|u.closed| - 1])) <==>
            var c := t.conn;
            c.Some? && c.value.at < |c.value.peer.answers| && c.value.peer.answers[c.value.at].Interrupted?
  {
    hide Transfer, AcceptNew;
    var t := Connected(s, luck);
    if t.conn.Some? {
      var c := t.conn.value;
      FailedAtOnce(|msg|, |msg|, c.peer.answers, c.at);
      if SendOn(c, msg).outcome.Closed? {
        ClosedMeansHungUp(0, |msg|, |msg|, c.peer.answers, c.at);
      }
    }
  }

  lemma PushInvStep(s: PushSide, e: PushEvent, size: nat)
    requires size > 0 && PushInv(s, size) && (e.Edge? ==> |e.data| == size)
    ensures PushInv(NextPush(s, e), size)
  {
    hide Chunks, Tail, Received, Push;
    var s' := NextPush(s, e);
    if e.Edge? && !e.done && PushOffers(s.push, e.vld, e.data).Some? {
      assert s.accepted <= s'.accepted && s'.svc == s.svc;
      forall i: nat | i < |s'.svc.closed| ensures CutShort(s', size, i) {
        assert CutShort(s, size, i);
      }
    } else if e.Edge? && PushOffers(s.push, e.vld, e.data).Some? {
      var msg := PushOffers(s.push, e.vld, e.data).value;
      PushOnce(s.svc, msg, e.luck, size);
      var t := s'.svc;
      assert s.accepted <= s'.accepted;
      assert s'.accepted == Received(Conns(s.svc), size) + [msg];
      forall i: nat | i < |t.closed| ensures CutShort(s', size, i) {
        if i < |s.svc.closed| {
          assert CutShort(s, size, i);
          assert t.closed[..i + 1] == s.svc.closed[..i + 1];
        } else {
          assert Conns(t) == t.closed && t.closed[..i + 1] == t.closed;
        }
      }
    } else {
      assert s'.accepted == s.accepted && s'.svc.closed == s.svc.closed && Conns(s'.svc) == Conns(s.svc);
      forall i: nat | i < |s'.svc.closed| ensures CutShort(s', size, i) {
        assert CutShort(s, size, i);
      }
    }
  }

  /** Over every run: the words of successful pushes are the whole messages the clients receive, in
      order, each once; the only word accepted and not received is the pending one. */
  lemma {:induction false} PushOverClients(hasUnix: bool, q: Msg, es: seq<PushEvent>, size: nat)
    requires size > 0 && Sized(es, size)
    ensures PushInv(RunPush(PushSide(Service(hasUnix, [], [], None, []), PushRegs(false, false, q), []), es), size)
  {
    if es != [] {
      var es' := es[..|es| - 1];
      PushOverClients(hasUnix, q, es', size);
      PushInvStep(RunPush(PushSide(Service(hasUnix, [], [], None, []), PushRegs(false, false, q), []), es'), es[|es| - 1], size);
    }
  }

  // ---- a pending word is sent again, and can be received ----

  /** An edge at which the call comes back: ready again exactly if there is a connection, open or accepted now, that
      takes the word of this edge, a new one or the pending one; clients receive that word exactly then. */
  lemma EdgeSendsIff(s: PushSide, vld: bool, data: Msg, luck: Luck, size: nat)
    requires size > 0 && PushInv(s, size) && |data| == size && s.push.started && (s.push.rdy ==> vld)
    ensures var s', t := NextPush(s, Edge(vld, data, true, luck)), Connected(s.svc, luck);
            var word := if s.push.rdy then data else s.push.q;
            && (s'.push.rdy <==> t.conn.Some? && Takes(t.conn.value, size))
            && Received(Conns(s'.svc), size) == Received(Conns(s.svc), size) + (if s'.push.rdy then [word] else [])
  {
    hide Push, Received, Takes, Connected, Tail, CutShort;
    var word := if s.push.rdy then data else s.push.q;
    PushSucceedsIff(s.svc, word, luck);
    PushOnce(s.svc, word, luck, size);
  }

  const ALL_WORKS := Luck(true, true, true)

  /** Clients that can be accepted, counting the accepted one once and the others twice. */
  function Chances(s: Service): nat
  {
    2 * ((if s.hasUnix then |s.unix| else 0) + |s.tcp|) + (if s.conn.Some? then 1 else 0)
  }

  /** The answers that an open connection has left. */
  function AnswersLeft(s: Service): nat
  {
    if s.conn.Some? && s.conn.value.at < |s.conn.value.peer.answers|
    then |s.conn.value.peer.answers| - s.conn.value.at else 0
  }

  /** A push that fails with all of poll() and accept() working leaves fewer chances, or fewer answers. */
  lemma FailedPushUsesUp(s: Service, msg: Msg)
    requires msg != [] && Chances(s) > 0 && !Push(s, msg, ALL_WORKS).1
    ensures var t := Push(s, msg, ALL_WORKS).0;
            Chances(t) < Chances(s) || (Chances(t) == Chances(s) && AnswersLeft(t) < AnswersLeft(s))
  {
    hide Transfer;
    var m := Connected(s, ALL_WORKS);
    var c := m.conn.value;
    FailedAtOnce(|msg|, |msg|, c.peer.answers, c.at);
    TransferContract(0, |msg|, |msg|, c.peer.answers, c.at);
  }

  lemma {:induction false} RunPushFirst(s: PushSide, e: PushEvent, es: seq<PushEvent>)
    ensures RunPush(s, [e] + es) == RunPush(NextPush(s, e), es)
    decreases |es|
  {
    hide NextPush;
    var all := [e] + es;
    if es == [] {
      assert all[..0] == [];
      assert RunPush(s, all) == NextPush(RunPush(s, all[..0]), all[0]);
    } else {
      RunPushFirst(s, e, es[..|es| - 1]);
      assert all[..|all| - 1] == [e] + es[..|es| - 1];
    }
  }

  /** A client whose kernel takes a message at once. */
  function Willing(size: nat): Peer { Peer([Moved(size)], []) }

  /** Where no client can be accepted, one more that is willing gets the next push. */
  lemma WillingTakes(s: Service, size: nat)
    requires size > 0 && Chances(s) == 0
    ensures var t := Connected(Joined(s, s.hasUnix, Willing(size)), ALL_WORKS);
            t.conn.Some? && Takes(t.conn.value, size)
  {
    var answers := [Moved(size)];
    assert Offered(answers, 0, 1) == size && NoHangUp(answers, 0, 1);
  }

  /** From every reachable state with a pending word, whatever its clients do, some arrival of a client and some
      edges make a client receive that word, and the module ready again. */
  lemma {:induction false} PendingCanBeReceived(s: PushSide, size: nat) returns (es: seq<PushEvent>)
    requires size > 0 && PushInv(s, size) && s.push.started && !s.push.rdy
    ensures PushInv(RunPush(s, es), size)
    ensures var t := RunPush(s, es);
            t.push.rdy && Received(Conns(t.svc), size) == Received(Conns(s.svc), size) + [s.push.q]
    decreases Chances(s.svc), AnswersLeft(s.svc)
  {
    hide PushInv, NextPush, Received, Takes, Connected, Push, Conns;
    var q := PendingWord(s, size);
    if Chances(s.svc) == 0 {
      var e1, e2 := Arrive(s.svc.hasUnix, Willing(size)), Edge(false, q, true, ALL_WORKS);
      PushInvStep(s, e1, size);
      var m := NextPush(s, e1);
      ArrivesOnly(s, s.svc.hasUnix, Willing(size));
      WillingTakes(s.svc, size);
      EdgeSendsIff(m, false, q, ALL_WORKS, size);
      PushInvStep(m, e2, size);
      RunPushFirst(s, e1, [e2]);
      RunPushFirst(m, e2, []);
      es := [e1] + [e2];
    } else {
      var e := Edge(false, q, true, ALL_WORKS);
      PushInvStep(s, e, size);
      var m := NextPush(s, e);
      EdgeSendsIff(s, false, q, ALL_WORKS, size);
      Retries(s, q, q);
      if m.push.rdy {
        RunPushFirst(s, e, []);
        es := [e];
      } else {
        FailedPushUsesUp(s.svc, q);
        var rest := PendingCanBeReceived(m, size);
        assert Received(Conns(s.svc), size) + [] == Received(Conns(s.svc), size);
        RunPushFirst(s, e, rest);
        es := [e] + rest;
      }
    }
  }

  /** From every reachable state, started or not, with a pending word or not, some events have the module accept any
      further word and clients receive it, after the pending one. */
  lemma WordCanBeReceived(s: PushSide, word: Msg, size: nat) returns (es: seq<PushEvent>)
    requires size > 0 && PushInv(s, size) && |word| == size
    ensures var t := RunPush(s, es);
            && PushInv(t, size) && t.push.rdy && t.accepted == s.accepted + [word]
            && Received(Conns(t.svc), size) == Received(Conns(s.svc), size) + Unsent(s.push) + [word]
  {
    hide NextPush, Received, Takes, Connected, Push, CutShort, HungUp;
    es := [];
    var t := s;
    if !s.push.started {
      StartReadies(s);
      PushInvStep(s, Start, size);
      RunPushFirst(s, Start, []);
      es, t := [Start], NextPush(s, Start);
    } else if !s.push.rdy {
      es := PendingCanBeReceived(s, size);
      t := RunPush(s, es);
    }
    var e := Edge(true, word, true, ALL_WORKS);
    EdgeSendsIff(t, true, word, ALL_WORKS, size);
    PushInvStep(t, e, size);
    EdgeAccepts(t, word);
    var u := NextPush(t, e);
    RunPushSnoc(s, es, e);
    es := es + [e];
    if !u.push.rdy {
      var more := PendingCanBeReceived(u, size);
      RunPushAppend(s, es, more);
      es := es + more;
    }
  }

  lemma StartReadies(s: PushSide)
    requires !s.push.started
    ensures var t := NextPush(s, Start); t.push.started && t.push.rdy && t.svc == s.svc && t.accepted == s.accepted
  {
  }

  lemma EdgeAccepts(s: PushSide, word: Msg)
    requires s.push.started && s.push.rdy
    ensures var t := NextPush(s, Edge(true, word, true, ALL_WORKS));
            t.accepted == s.accepted + [word] && t.push.started && t.push.q == word
  {
    hide Push;
  }

  lemma RunPushSnoc(s: PushSide, es: seq<PushEvent>, e: PushEvent)
    ensures RunPush(s, es + [e]) == NextPush(RunPush(s, es), e)
  {
    assert (es + [e])[..|es|] == es;
  }

  lemma {:induction false} RunPushAppend(s: PushSide, es: seq<PushEvent>, fs: seq<PushEvent>)
    ensures RunPush(s, es + fs) == RunPush(RunPush(s, es), fs)
    decreases |fs|
  {
    hide NextPush;
    if fs == [] {
      assert es + fs == es;
    } else {
      RunPushAppend(s, es, fs[..|fs| - 1]);
      assert (es + fs)[..|es + fs| - 1] == es + fs[..|fs| - 1];
    }
  }

  lemma PendingWord(s: PushSide, size: nat) returns (q: Msg)
    requires size > 0 && PushInv(s, size) && s.push.started && !s.push.rdy
    ensures q == s.push.q && |q| == size
  {
    q := s.push.q;
  }

  lemma ArrivesOnly(s: PushSide, viaUnix: bool, p: Peer)
    ensures NextPush(s, Arrive(viaUnix, p)) == s.(svc := Joined(s.svc, viaUnix, p))
    ensures Conns(Joined(s.svc, viaUnix, p)) == Conns(s.svc)
  {
  }

  /** An edge of a module with a pending word pushes that word. */
  lemma Retries(s: PushSide, q: Msg, data: Msg)
    requires s.push.started && !s.push.rdy && q == s.push.q
    ensures var (svc, ok) := Push(s.svc, q, ALL_WORKS);
            NextPush(s, Edge(false, data, true, ALL_WORKS)) == s.(svc := svc, push := s.push.(rdy := ok))
  {
    hide Push;
  }

  /** Each client receives its own run of accepted words: the runs follow one another. */
  lemma {:induction false} ClientReceivesSlice(cs: seq<Conn>, i: nat, size: nat)
    requires size > 0 && i < |cs|
    ensures var lo, hi := |Received(cs[..i], size)|, |Received(cs[..i + 1], size)|;
            lo <= hi <= |Received(cs, size)| && Chunks(cs[i].sent, size) == Received(cs, size)[lo..hi]
    decreases |cs|
  {
    hide Chunks, Received;
    var front := cs[..|cs| - 1];
    assert cs == front + [cs[|cs| - 1]];
    ReceivedSnoc(front, cs[|cs| - 1], size);
    if i < |front| {
      ClientReceivesSlice(front, i, size);
      assert front[..i] == cs[..i] && front[..i + 1] == cs[..i + 1];
    } else {
      assert cs[..i] == front && cs[..i + 1] == cs;
    }
  }

  // ---- pulls ----

  datatype PullSide = PullSide(svc: Service, got: seq<Msg>)

  datatype PullEvent = Come(viaUnix: bool, peer: Peer) | Call(luck: Luck)

  function NextPull(s: PullSide, e: PullEvent, size: nat): PullSide
    requires ConnOk(s.svc)
  {
    match e
    case Come(viaUnix, peer) => s.(svc := Joined(s.svc, viaUnix, peer))
    case Call(luck) =>
      var (svc, m) := Pull(s.svc, size, luck);
      PullSide(svc, if m.Some? then s.got + [m.value] else s.got)
  }

  function RunPull(s: PullSide, es: seq<PullEvent>, size: nat): (t: PullSide)
    requires ConnOk(s.svc)
    ensures ConnOk(t.svc)
  {
    if es == [] then s else NextPull(RunPull(s, es[..|es| - 1], size), es[|es| - 1], size)
  }

  /** The whole messages read from each connection, connection after connection. */
  function Returned(cs: seq<Conn>, size: nat): (ms: seq<Msg>)
    requires size > 0 && forall c :: c in cs ==> c.taken <= |c.peer.incoming|
  {
    if cs == [] then []
    else Returned(cs[..|cs| - 1], size)
         + Chunks(cs[|cs| - 1].peer.incoming[..cs[|cs| - 1].taken], size)
  }

  /** The peer answers every call until it has given all of its bytes. */
  predicate Orderly(c: Conn) {
    c.at <= |c.peer.answers| && Eof !in c.peer.answers && Broken !in c.peer.answers
  }

  ghost predicate PullInv(s: PullSide, size: nat)
    requires size > 0
  {
    && (forall c :: c in Conns(s.svc) ==> c.taken <= |c.peer.incoming|)
    && s.got == Returned(Conns(s.svc), size)
    && (s.svc.conn.Some? ==> Tail(s.svc.conn.value.peer.incoming[..s.svc.conn.value.taken], size) == [])
    && (forall c :: c in s.svc.closed && Orderly(c) ==> c.taken == |c.peer.incoming|)
  }

  lemma ReturnedSnoc(cs: seq<Conn>, c: Conn, size: nat)
    requires size > 0 && forall d :: d in cs + [c] ==> d.taken <= |d.peer.incoming|
    ensures (forall d :: d in cs ==> d in cs + [c])
    ensures Returned(cs + [c], size) == Returned(cs, size) + Chunks(c.peer.incoming[..c.taken], size)
  {
    assert (cs + [c])[..|cs|] == cs;
  }

  /** Reading a message from an aligned stream either returns the next whole message, or drops fewer
      bytes than a message, none of them unless the connection ended. */
  lemma ReadAligned(c: Conn, size: nat)
    requires size > 0 && c.taken <= |c.peer.incoming| && Tail(c.peer.incoming[..c.taken], size) == []
    ensures var x := ReadOn(c, size);
            var read := c.peer.incoming[..c.taken + x.moved];
            var before := Chunks(c.peer.incoming[..c.taken], size);
            && (x.outcome.Whole? ==> Chunks(read, size) == before + [c.peer.incoming[c.taken..c.taken + size]]
                                     && Tail(read, size) == [])
            && (!x.outcome.Whole? ==> Chunks(read, size) == before && |Tail(read, size)| == x.moved)
            && (x.outcome.Failed? ==> x.moved == 0)
            && (x.outcome.Closed? && Orderly(c.(at := x.at)) ==> c.taken + x.moved == |c.peer.incoming|)
  {
    hide Chunks, Tail, Transfer;
    var x := ReadOn(c, size);
    var avail := |c.peer.incoming| - c.taken;
    TransferContract(0, size, avail, c.peer.answers, c.at);
    var more := c.peer.incoming[c.taken..c.taken + x.moved];
    assert c.peer.incoming[..c.taken + x.moved] == c.peer.incoming[..c.taken] + more;
    AppendBytes(c.peer.incoming[..c.taken], more, size);
    assert Tail(c.peer.incoming[..c.taken], size) + more == more;
    if x.outcome.Closed? && Orderly(c.(at := x.at)) {
      ClosedMeansDrained(0, size, avail, c.peer.answers, c.at);
    }
  }

  lemma {:induction false} ClosedMeansDrained(done: nat, size: nat, avail: nat, answers: seq<Answer>, at: nat)
    requires done <= size && Transfer(done, size, avail, answers, at).outcome.Closed?
    requires Eof !in answers && Broken !in answers && Transfer(done, size, avail, answers, at).at <= |answers|
    ensures Transfer(done, size, avail, answers, at).moved == done + avail
    decreases |answers| - at
  {
    var a := SocketIo.Next(answers, at, avail);
    if a.Moved? {
      var k := Clamp(a.n, Min(size - done, avail));
      ClosedMeansDrained(done + k, size, avail - k, answers, at + 1);
    } else if WaitAndRetry(done, a).None? {
      ClosedMeansDrained(done, size, avail, answers, at + 1);
    }
  }

  /** Pulling a message from an open, aligned connection. */
  lemma PullOnOpen(s: Service, size: nat)
    requires size > 0 && s.conn.Some? && (forall c :: c in Conns(s) ==> c.taken <= |c.peer.incoming|)
    requires Tail(s.conn.value.peer.incoming[..s.conn.value.taken], size) == []
    ensures var r := PullOn(s, size);
            && (forall c :: c in Conns(r.0) ==> c.taken <= |c.peer.incoming|)
            && Returned(Conns(r.0), size) == Returned(Conns(s), size) + (if r.1.Some? then [r.1.value] else [])
            && (r.0.conn.Some? ==> r.0.closed == s.closed
                                   && Tail(r.0.conn.value.peer.incoming[..r.0.conn.value.taken], size) == [])
            && (r.0.conn.None? ==> exists c :: r.0.closed == s.closed + [c]
                                               && (Orderly(c) ==> c.taken == |c.peer.incoming|))
  {
    hide Chunks, Tail, Transfer, Returned, Orderly;
    var c := s.conn.value;
    ReadAligned(c, size);
    var x := ReadOn(c, size);
    var c' := c.(at := x.at, taken := c.taken + x.moved);
    var r := PullOn(s, size);
    assert Conns(s) == s.closed + [c] && Conns(r.0) == s.closed + [c'];
    assert forall d :: d in s.closed ==> d in Conns(s);
    ReturnedSnoc(s.closed, c, size);
    ReturnedSnoc(s.closed, c', size);
    assert |Tail(c'.peer.incoming[..c'.taken], size)| == 0 ==> Tail(c'.peer.incoming[..c'.taken], size) == [];
    if r.0.conn.None? {
      assert r.0.closed == s.closed + [c'] && c'.peer == c.peer && c' == c.(at := x.at).(taken := c.taken + x.moved);
      OrderlyAt(c, c');
    }
  }

  lemma OrderlyAt(c: Conn, d: Conn)
    requires c.peer == d.peer
    ensures Orderly(c.(at := d.at)) == Orderly(d)
  {
  }

  lemma PullInvStep(s: PullSide, e: PullEvent, size: nat)
    requires size > 0 && PullInv(s, size) && ConnOk(s.svc)
    ensures PullInv(NextPull(s, e, size), size)
  {
    hide Tail, Returned, PullOn, Orderly;
    var s' := NextPull(s, e, size);
    if e.Call? && Connected(s.svc, e.luck).conn.Some? {
      var m := Connected(s.svc, e.luck);
      assert forall d :: d in s.svc.closed ==> d in Conns(s.svc);
      if s.svc.conn.None? {
        assert Conns(s.svc) == s.svc.closed && Conns(m) == s.svc.closed + [m.conn.value];
        ReturnedSnoc(s.svc.closed, m.conn.value, size);
        NothingYet(m.conn.value, size);
      }
      PullOnOpen(m, size);
    } else {
      assert s'.svc.closed == s.svc.closed && Conns(s'.svc) == Conns(s.svc);
    }
  }

  lemma NothingYet(c: Conn, size: nat)
    requires size > 0 && c.taken == 0
    ensures Chunks(c.peer.incoming[..c.taken], size) == [] && Tail(c.peer.incoming[..c.taken], size) == []
  {
  }

  lemma {:induction false} PullOverClients(hasUnix: bool, es: seq<PullEvent>, size: nat)
    requires size > 0
    ensures PullInv(RunPull(PullSide(Service(hasUnix, [], [], None, []), []), es, size), size)
  {
    if es != [] {
      var es' := es[..|es| - 1];
      PullOverClients(hasUnix, es', size);
      PullInvStep(RunPull(PullSide(Service(hasUnix, [], [], None, []), []), es', size), es[|es| - 1], size);
    }
  }

  /** The messages read so far from a client are its first whole messages, and all of them once it
      has given all of its bytes. */
  lemma {:induction false} ReadIsPrefix(incoming: seq<byte>, taken: nat, size: nat)
    requires size > 0 && taken <= |incoming|
    ensures Chunks(incoming[..taken], size) <= Chunks(incoming, size)
    ensures taken == |incoming| ==> Chunks(incoming[..taken], size) == Chunks(incoming, size)
  {
    if taken == |incoming| {
      assert incoming[..taken] == incoming;
    } else if taken >= size {
      ReadIsPrefix(incoming[size..], taken - size, size);
      assert incoming[..taken][size..] == incoming[size..][..taken - size];
      assert incoming[..taken][..size] == incoming[..size];
    }
  }

  /** A pull keeps a connection that has hung up exactly if the first answer to it is a permanent error: between two
      messages only the end of the stream closes it. */
  lemma PullKeepsDeadIff(s: Service, size: nat, luck: Luck)
    requires size > 0 && ConnOk(s)
    ensures var t, u := Connected(s, luck), Pull(s, size, luck).0;
            (u.conn.Some? && HungUp(u.conn.value)) <==>
            (t.conn.Some? && var c := t.conn.value; c.at >= |c.peer.answers| || c.peer.answers[c.at].Broken?)
  {
    hide Transfer, AcceptNew;
    var t := Connected(s, luck);
    if t.conn.Some? {
      AcceptedOk(s, luck);
      var c := t.conn.value;
      var avail := |c.peer.incoming| - c.taken;
      FailedAtOnce(size, avail, c.peer.answers, c.at);
      if ReadOn(c, size).outcome.Whole? {
        WholeEndsMoving(0, size, avail, c.peer.answers, c.at);
      }
    } else {
      NoneOpen(s, luck);
    }
  }

  lemma AcceptedOk(s: Service, luck: Luck)
    requires ConnOk(s)
    ensures ConnOk(Connected(s, luck))
  {
  }

  lemma NoneOpen(s: Service, luck: Luck)
    requires Connected(s, luck).conn.None?
    ensures s.conn.None?
  {
  }

  /** As long as the kernel answers so, every further pull keeps it, returns nothing, and accepts nobody. */
  lemma {:induction false} DeadPullForEver(s: PullSide, es: seq<PullEvent>, size: nat)
    requires size > 0 && ConnOk(s.svc) && s.svc.conn.Some? && s.svc.conn.value.at >= |s.svc.conn.value.peer.answers|
    ensures var t := RunPull(s, es, size);
            && t.got == s.got && t.svc.closed == s.svc.closed
            && s.svc.unix <= t.svc.unix && s.svc.tcp <= t.svc.tcp
            && t.svc.conn.Some? && t.svc.conn.value == s.svc.conn.value.(at := t.svc.conn.value.at)
            && t.svc.conn.value.at >= s.svc.conn.value.at
  {
    if es != [] {
      hide Transfer;
      DeadPullForEver(s, es[..|es| - 1], size);
      var m := RunPull(s, es[..|es| - 1], size);
      var c := m.svc.conn.value;
      FailedAtOnce(size, |c.peer.incoming| - c.taken, c.peer.answers, c.at);
    }
  }

  /** A pull returns a message exactly if there is a connection, open or accepted now, with a whole message left to
      read, which the kernel starts at once and gives whole before it hangs up. */
  lemma PullSucceedsIff(s: Service, size: nat, luck: Luck)
    requires size > 0 && ConnOk(s)
    ensures var t, m := Connected(s, luck), Pull(s, size, luck).1;
            && (m.Some? <==>
                  && t.conn.Some? && Takes(t.conn.value, size)
                  && t.conn.value.taken + size <= |t.conn.value.peer.incoming|)
            && (m.Some? ==> m.value == t.conn.value.peer.incoming[t.conn.value.taken..t.conn.value.taken + size])
  {
    hide Transfer, AcceptNew, PaysFor;
    AcceptedOk(s, luck);
    var t := Connected(s, luck);
    if t.conn.Some? {
      var c := t.conn.value;
      var avail := |c.peer.incoming| - c.taken;
      TransferContract(0, size, avail, c.peer.answers, c.at);
      if avail >= size {
        TransferWholeIff(0, size, avail, c.peer.answers, c.at);
        if PaysFor(c.peer.answers, c.at, size) {
          PayingIsAnswering(c.peer.answers, c.at, size);
        }
      }
    }
  }
}
