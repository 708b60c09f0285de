/** The ZeBu deferred calls: the MULTISIM_SERVER_PULL/PUSH macros and the processes that call the
    DPIs (src/core/multisim_common.svh), against the host's call counters (zebu_status in
    src/core/multisim_server.cpp), for any number of transactors. */
module ZebuCalls {
  import opened Wrappers

  const WRAP31: nat := 0x8000_0000
  const WRAP32: nat := 0x1_0000_0000

  /** The status word is {call_count[30:0], ok}. */
  function StatusWord(callCnt: nat, ok: bool): (w: nat)
    requires callCnt < WRAP32
    ensures w < WRAP32
  {
    callCnt * 2 % WRAP32 + (if ok then 1 else 0)
  }

  /** The shift drops the upper bit of the 32-bit counter and nothing else. */
  lemma StatusFields(callCnt: nat, ok: bool)
    requires callCnt < WRAP32
    ensures StatusWord(callCnt, ok) / 2 == callCnt % WRAP31 && (StatusWord(callCnt, ok) % 2 == 1) == ok
  {
  }

  /** A status word with the data next to it; `serial` tells which call of its transactor it answers. */
  datatype Status<D> = Status(word: nat, data: D, serial: nat)

  /** A forked call: edges left to wait, and what the host returned, once done. */
  datatype Fork<D> = Fork(latency: nat, result: Option<Status<D>>, serial: nat)

  /** What the DPI of a call returned on the host. */
  datatype Reply<D> = Reply(ok: bool, data: D)

  datatype Pc = Free | Requested | Waiting

  /** A transactor process: its server's index on the host, call_cnt, call, the status register, the
      forked calls; the calls made, the host's replies to them, and the statuses they returned. */
  datatype Proc<D> = Proc(idx: nat, cnt: nat, call: bool, pc: Pc, status: Status<D>, forks: seq<Fork<D>>,
                          calls: nat, replies: seq<Reply<D>>, returned: seq<Status<D>>)

  /** Every transactor, and zebu_call_cnt. */
  datatype System<D> = System(procs: seq<Proc<D>>, callCnt: seq<nat>)

  /** Events of transactor `i`: a clock edge, at which an idle process may make a call; the host runs
      the DPI of its oldest unanswered fork; a fork that has waited stores its result. */
  datatype Event<D> =
    | Edge(i: nat, makesCall: bool)
    | HostRuns(i: nat, ok: bool, data: D)
    | Stores(i: nat)

  predicate CallDone<D>(p: Proc<D>) { p.status.word / 2 == p.cnt }

  function OnEdge<D>(p: Proc<D>, makesCall: bool, latency: nat): Proc<D>
  {
    var waiting := seq(|p.forks|, j requires 0 <= j < |p.forks| =>
      p.forks[j].(latency := if p.forks[j].latency > 0 then p.forks[j].latency - 1 else 0));
    var q := p.(forks := if p.call then waiting + [Fork(latency, None, p.calls)] else waiting);
    match p.pc
    case Free =>
      if makesCall then q.(cnt := (p.cnt + 1) % WRAP31, call := true, pc := Requested, calls := p.calls + 1) else q
    case Requested =>
      if CallDone(p) then q.(call := false, pc := Free, returned := p.returned + [p.status])
      else q.(call := false, pc := Waiting)
    case Waiting =>
      if CallDone(p) then q.(pc := Free, returned := p.returned + [p.status]) else q
  }

  function Next<D>(s: System<D>, e: Event<D>, latency: nat): System<D>
    requires forall p :: p in s.procs ==> p.idx < |s.callCnt|
    requires forall c :: c in s.callCnt ==> c < WRAP32
  {
    if e.i >= |s.procs| then s
    else
      var p := s.procs[e.i];
      match e
      case Edge(i, makesCall) => s.(procs := s.procs[i := OnEdge(p, makesCall, latency)])
      case HostRuns(i, ok, data) =>
        if p.forks == [] || p.forks[0].result.Some? then s
        else
          var f := p.forks[0];
          var c := (s.callCnt[p.idx] + 1) % WRAP32;
          System(s.procs[i := p.(forks := p.forks[0 := f.(result := Some(Status(StatusWord(c, ok), data, f.serial)))],
                                 replies := p.replies + [Reply(ok, data)])],
                 s.callCnt[p.idx := c])
      case Stores(i) =>
        if p.forks == [] || p.forks[0].latency > 0 || p.forks[0].result.None? then s
        else s.(procs := s.procs[i := p.(status := p.forks[0].result.value, forks := p.forks[1..])])
  }

  /** A status that carries a reply. */
  predicate Carries<D(==)>(t: Status<D>, r: Reply<D>) { t.data == r.data && (t.word % 2 == 1) == r.ok }

  /** What holds of a transactor whose host counter is `c`: at most one call is outstanding, the status
      register is the one of the last call or of the call before, and both counts agree modulo 2^31. */
  ghost predicate ProcInv<D(!new)>(p: Proc<D>, c: nat)
  {
    && p.cnt < WRAP31 && c < WRAP32
    && |p.returned| <= |p.replies| <= p.calls
    && (forall k :: 0 <= k < |p.returned| ==> p.returned[k].serial == k + 1 && Carries(p.returned[k], p.replies[k]))
    && (p.pc.Free? ==>
          && !p.call && p.forks == [] && |p.returned| == p.calls && p.status.serial == p.calls
          && p.status.word / 2 == p.cnt == c % WRAP31)
    && (!p.pc.Free? ==> |p.returned| + 1 == p.calls)
    && (p.pc.Requested? ==>
          p.call && p.forks == [] && OneBehind(p) && c % WRAP31 == p.status.word / 2 && |p.replies| < p.calls)
    && (p.pc.Waiting? ==>
          && !p.call && |p.forks| <= 1
          && (p.forks == [] ==>
                && p.status.serial == p.calls && p.status.word / 2 == p.cnt == c % WRAP31
                && |p.replies| == p.calls && Carries(p.status, p.replies[p.calls - 1]))
          && (p.forks != [] ==>
                && OneBehind(p) && p.forks[0].serial == p.calls
                && (match p.forks[0].result
                    case None => c % WRAP31 == p.status.word / 2 && |p.replies| < p.calls
                    case Some(r) =>
                      && r.serial == p.calls && r.word / 2 == p.cnt == c % WRAP31
                      && |p.replies| == p.calls && Carries(r, p.replies[p.calls - 1]))))
  }

  predicate OneBehind<D>(p: Proc<D>) { p.cnt == (p.status.word / 2 + 1) % WRAP31 && p.status.word / 2 < WRAP31 }

  /** The transactors have their own servers. */
  ghost predicate Distinct<D(!new)>(ps: seq<Proc<D>>)
  {
    forall i, j :: 0 <= i < j < |ps| ==> ps[i].idx != ps[j].idx
  }

  ghost predicate Inv<D(!new)>(s: System<D>)
  {
    && (forall p :: p in s.procs ==> p.idx < |s.callCnt|)
    && (forall c :: c in s.callCnt ==> c < WRAP32)
    && Distinct(s.procs)
    && forall i :: 0 <= i < |s.procs| ==> ProcInv(s.procs[i], s.callCnt[s.procs[i].idx])
  }

  lemma EdgeKeeps<D(!new)>(p: Proc<D>, c: nat, makesCall: bool, latency: nat)
    requires ProcInv(p, c)
    ensures ProcInv(OnEdge(p, makesCall, latency), c) && OnEdge(p, makesCall, latency).idx == p.idx
  {
  }

  lemma HostKeeps<D(!new)>(p: Proc<D>, c: nat, ok: bool, data: D)
    requires ProcInv(p, c) && p.forks != [] && p.forks[0].result.None?
    ensures var f, c' := p.forks[0], (c + 1) % WRAP32;
            ProcInv(p.(forks := p.forks[0 := f.(result := Some(Status(StatusWord(c', ok), data, f.serial)))],
                       replies := p.replies + [Reply(ok, data)]), c')
  {
    StatusFields((c + 1) % WRAP32, ok);
    CountUp(c);
  }

  lemma CountUp(c: nat)
    ensures (c + 1) % WRAP32 % WRAP31 == (c % WRAP31 + 1) % WRAP31
  {
  }

  lemma InvStep<D(!new)>(s: System<D>, e: Event<D>, latency: nat)
    requires Inv(s)
    ensures Inv(Next(s, e, latency))
  {
    hide ProcInv, OnEdge, StatusWord;
    if e.i < |s.procs| {
      var p := s.procs[e.i];
      var c := s.callCnt[p.idx];
      match e {
        case Edge(i, makesCall) => EdgeKeeps(p, c, makesCall, latency);
        case HostRuns(i, ok, data) =>
          if p.forks != [] && p.forks[0].result.None? {
            HostKeeps(p, c, ok, data);
            var t := Next(s, e, latency);
            forall j | 0 <= j < |t.procs| ensures ProcInv(t.procs[j], t.callCnt[t.procs[j].idx]) {
              if j != i {
                assert t.procs[j] == s.procs[j] && s.procs[j].idx != p.idx;
              }
            }
            forall q | q in t.procs ensures q.idx < |t.callCnt| {
              assert q.idx == p.idx || q in s.procs;
            }
            assert forall x :: x in t.callCnt ==> x in s.callCnt || x == (c + 1) % WRAP32;
            assert Distinct(t.procs);
          }
        case Stores(i) => StoreKeeps(p, c);
      }
    }
  }

  lemma StoreKeeps<D(!new)>(p: Proc<D>, c: nat)
    requires ProcInv(p, c)
    ensures p.forks != [] && p.forks[0].result.Some? ==>
              ProcInv(p.(status := p.forks[0].result.value, forks := p.forks[1..]), c)
  {
  }

  function Run<D(!new)>(s: System<D>, es: seq<Event<D>>, latency: nat): (t: System<D>)
    requires Inv(s)
    ensures Inv(t)
  {
    if es == [] then s
    else
      var m := Run(s, es[..|es| - 1], latency);
      InvStep(m, es[|es| - 1], latency);
      Next(m, es[|es| - 1], latency)
  }

  function Reset<D>(idx: nat, d: D): Proc<D> { Proc(idx, 0, false, Free, Status(0, d, 0), [], 0, [], []) }

  /** The host's replies to transactor `i` over a run, in order: those of the events at which it has a call to answer. */
  function RepliesTo<D(!new)>(s: System<D>, es: seq<Event<D>>, latency: nat, i: nat): seq<Reply<D>>
    requires Inv(s)
  {
    if es == [] then []
    else
      var front, e := es[..|es| - 1], es[|es| - 1];
      RepliesTo(s, front, latency, i)
      + (if e.HostRuns? && e.i == i && Unanswered(Run(s, front, latency), i) then [Reply(e.ok, e.data)] else [])
  }

  predicate Unanswered<D>(s: System<D>, i: nat)
  {
    i < |s.procs| && s.procs[i].forks != [] && s.procs[i].forks[0].result.None?
  }

  lemma RepliesStep<D(!new)>(s: System<D>, e: Event<D>, latency: nat, i: nat)
    requires Inv(s) && i < |s.procs|
    ensures i < |Next(s, e, latency).procs|
    ensures Next(s, e, latency).procs[i].replies ==
            s.procs[i].replies + (if e.HostRuns? && e.i == i && Unanswered(s, i) then [Reply(e.ok, e.data)] else [])
  {
    hide StatusWord, ProcInv;
    assert s.procs[i].replies + [] == s.procs[i].replies;
  }

  lemma {:induction false} RepliesAre<D(!new)>(s: System<D>, es: seq<Event<D>>, latency: nat, i: nat)
    requires Inv(s) && i < |s.procs| && s.procs[i].replies == []
    ensures i < |Run(s, es, latency).procs|
    ensures Run(s, es, latency).procs[i].replies == RepliesTo(s, es, latency, i)
  {
    hide Next, Inv, Unanswered;
    if es != [] {
      RepliesAre(s, es[..|es| - 1], latency, i);
      RepliesStep(Run(s, es[..|es| - 1], latency), es[|es| - 1], latency, i);
    }
  }

  /** From reset, over every interleaving of the transactors and the host, through any number of wraps:
      a process has at most one call outstanding, the `k`-th status it returns is that of its `k`-th
      call, with the data and the result of the host's `k`-th reply to it, and its count is the host's modulo 2^31
      whenever it is idle. */
  lemma NoStaleStatus<D(!new)>(s: System<D>, es: seq<Event<D>>, latency: nat, i: nat)
    requires Distinct(s.procs) && (forall p :: p in s.procs ==> p.idx < |s.callCnt|)
    requires forall c :: c in s.callCnt ==> c == 0
    requires forall p :: p in s.procs ==> p == Reset(p.idx, p.status.data)
    requires i < |s.procs|
    ensures Inv(s)
    ensures var t := Run(s, es, latency);
            && |t.procs| == |s.procs|
            && var p := t.procs[i];
               && p.idx == s.procs[i].idx
               && |p.forks| + (if p.call then 1 else 0) <= 1
               && (forall k :: 0 <= k < |p.returned| ==> p.returned[k].serial == k + 1)
               && p.replies == RepliesTo(s, es, latency, i) && |p.returned| <= |p.replies|
               && (forall k :: 0 <= k < |p.returned| ==> Carries(p.returned[k], p.replies[k]))
               && p.calls - 1 <= |p.returned| <= p.calls
               && (p.pc.Free? ==> t.callCnt[p.idx] % WRAP31 == p.cnt)
  {
    forall j | 0 <= j < |s.procs| ensures ProcInv(s.procs[j], s.callCnt[s.procs[j].idx]) {
      assert s.procs[j] in s.procs;
      assert s.callCnt[s.procs[j].idx] in s.callCnt;
    }
    SameProcs(s, es, latency);
    assert s.procs[i] in s.procs;
    RepliesAre(s, es, latency, i);
  }

  lemma SameStep<D(!new)>(s: System<D>, e: Event<D>, latency: nat)
    requires Inv(s)
    ensures var t := Next(s, e, latency);
            |t.procs| == |s.procs| && forall i :: 0 <= i < |s.procs| ==> t.procs[i].idx == s.procs[i].idx
  {
  }

  lemma {:induction false} SameProcs<D(!new)>(s: System<D>, es: seq<Event<D>>, latency: nat)
    requires Inv(s)
    ensures var t := Run(s, es, latency);
            |t.procs| == |s.procs| && forall i :: 0 <= i < |s.procs| ==> t.procs[i].idx == s.procs[i].idx
  {
    hide Next, Inv;
    if es != [] {
      SameProcs(s, es[..|es| - 1], latency);
      SameStep(Run(s, es[..|es| - 1], latency), es[|es| - 1], latency);
    }
  }

  // ---- a call can be finished ----

  /** Events of a call from its request to its status. */
  function StepsLeft<D>(p: Proc<D>): nat
  {
    match p.pc
    case Free => 0
    case Requested => 5
    case Waiting => if p.forks == [] then 1 else if p.forks[0].result.None? then 4 else 2
  }

  function EdgesLeft<D>(p: Proc<D>): nat { if p.forks == [] then 0 else p.forks[0].latency }

  /** The next event of the call of transactor `i`; `r` is the host's reply. */
  function Helpful<D>(p: Proc<D>, i: nat, r: Reply<D>): Event<D>
  {
    if p.pc.Waiting? && p.forks != [] then
      if p.forks[0].result.None? then HostRuns(i, r.ok, r.data)
      else if p.forks[0].latency == 0 then Stores(i)
      else Edge(i, false)
    else Edge(i, false)
  }

  /** An edge of an idle process at which it makes a call. */
  lemma CallBegins<D(!new)>(s: System<D>, i: nat, latency: nat)
    requires Inv(s) && i < |s.procs| && s.procs[i].pc.Free?
    ensures var t := Next(s, Edge(i, true), latency);
            |t.procs| == |s.procs| && t.procs[i].pc.Requested? && t.procs[i].calls == s.procs[i].calls + 1
  {
  }

  lemma EventHelps<D(!new)>(s: System<D>, i: nat, latency: nat, r: Reply<D>)
    requires Inv(s) && i < |s.procs| && !s.procs[i].pc.Free?
    ensures var p := s.procs[i];
            var t := Next(s, Helpful(p, i, r), latency);
            && |t.procs| == |s.procs|
            && var q := t.procs[i];
               && q.calls == p.calls
               && (StepsLeft(q) < StepsLeft(p) || (StepsLeft(q) == StepsLeft(p) && EdgesLeft(q) < EdgesLeft(p)))
               && (q.pc.Free? ==> |q.returned| == q.calls)
  {
    hide StatusWord;
  }

  lemma {:induction false} RunFirst<D(!new)>(s: System<D>, e: Event<D>, es: seq<Event<D>>, latency: nat)
    requires Inv(s)
    ensures Inv(Next(s, e, latency)) && Run(s, [e] + es, latency) == Run(Next(s, e, latency), es, latency)
    decreases |es|
  {
    hide Next, ProcInv, Distinct;
    InvStep(s, e, latency);
    var all := [e] + es;
    if es == [] {
      assert all[..0] == [];
      assert Run(s, all[..0], latency) == s;
    } else {
      RunFirst(s, e, es[..|es| - 1], latency);
      assert all[..|all| - 1] == [e] + es[..|es| - 1];
    }
  }

  /** From every state with a call under way, whatever the other transactors have been doing, some events of its own
      make it return a status: one for each call made so far. */
  lemma {:induction false} CallCanFinish<D(!new)>(s: System<D>, i: nat, latency: nat, r: Reply<D>)
    returns (es: seq<Event<D>>)
    requires Inv(s) && i < |s.procs| && !s.procs[i].pc.Free?
    ensures var t := Run(s, es, latency);
            |t.procs| == |s.procs| && t.procs[i].pc.Free? && |t.procs[i].returned| == t.procs[i].calls == s.procs[i].calls
    decreases StepsLeft(s.procs[i]), EdgesLeft(s.procs[i])
  {
    hide Next, ProcInv, Distinct, StepsLeft, EdgesLeft;
    var e := Helpful(s.procs[i], i, r);
    EventHelps(s, i, latency, r);
    InvStep(s, e, latency);
    var t := Next(s, e, latency);
    if t.procs[i].pc.Free? {
      es := [e];
      RunFirst(s, e, [], latency);
    } else {
      var rest := CallCanFinish(t, i, latency, r);
      es := [e] + rest;
      RunFirst(s, e, rest, latency);
    }
  }

  /** The status of a call is stored no earlier than `latency` edges after its fork. */
  lemma ForkWaits<D(!new)>(s: System<D>, i: nat, makesCall: bool, latency: nat)
    requires Inv(s) && i < |s.procs|
    ensures var p, q := s.procs[i], Next(s, Edge(i, makesCall), latency).procs[i];
            && (p.call ==> q.forks == [Fork(latency, None, p.calls)])
            && (p.forks != [] && p.forks[0].latency > 0 ==>
                  && q.forks == [p.forks[0].(latency := p.forks[0].latency - 1)]
                  && Next(s, Stores(i), latency) == s)
  {
    hide StatusWord;
  }

  // ---- the process and the host as objects ----

  lemma EdgeAlone<D>(p: Proc<D>, cnts: seq<nat>, makesCall: bool, latency: nat)
    requires p.idx < |cnts| && forall c :: c in cnts ==> c < WRAP32
    ensures Next(System([p], cnts), Edge(0, makesCall), latency) == System([OnEdge(p, makesCall, latency)], cnts)
  {
    hide OnEdge;
  }

  class HostCounters {
    const zebuCallCnt: array<nat>

    ghost predicate Valid()
      reads zebuCallCnt
    {
      forall i :: 0 <= i < zebuCallCnt.Length ==> zebuCallCnt[i] < WRAP32
    }

    constructor (n: nat)
      ensures fresh(zebuCallCnt) && zebuCallCnt.Length == n && forall i :: 0 <= i < n ==> zebuCallCnt[i] == 0
      ensures Valid()
    {
      zebuCallCnt := new nat[n](i => 0);
    }

    method ZebuStatus(idx: nat, ok: bool) returns (word: nat)
      requires Valid() && idx < zebuCallCnt.Length
      modifies zebuCallCnt
      ensures Valid()
      ensures zebuCallCnt[..] == old(zebuCallCnt[..])[idx := (old(zebuCallCnt[idx]) + 1) % WRAP32]
      ensures word == StatusWord(zebuCallCnt[idx], ok)
    {
      zebuCallCnt[idx] := (zebuCallCnt[idx] + 1) % WRAP32;
      word := StatusWord(zebuCallCnt[idx], ok);
    }
  }

  /** A transactor and the host it calls: each method is an event of the system in which it is the only one. */
  class Transactor<D> {
    const idx: nat
    const latency: nat
    const host: HostCounters
    var cnt: nat
    var call: bool
    var status: Status<D>
    var forks: seq<Fork<D>>
    var pc: Pc
    var calls: nat
    ghost var replies: seq<Reply<D>>
    ghost var returned: seq<Status<D>>

    ghost predicate Valid()
      reads this, host, host.zebuCallCnt
    {
      idx < host.zebuCallCnt.Length && host.Valid()
    }

    ghost function View(): System<D>
      reads this, host, host.zebuCallCnt
    {
      System([Proc(idx, cnt, call, pc, status, forks, calls, replies, returned)], host.zebuCallCnt[..])
    }

    constructor (idx: nat, latency: nat, host: HostCounters, d: D)
      requires idx < host.zebuCallCnt.Length && host.Valid()
      ensures Valid() && this.latency == latency && this.host == host
      ensures View() == System([Reset(idx, d)], host.zebuCallCnt[..])
    {
      this.idx, this.latency, this.host := idx, latency, host;
      cnt, call, status, forks, pc, calls, replies, returned := 0, false, Status(0, d, 0), [], Free, 0, [], [];
    }

    method Posedge(makesCall: bool)
      requires Valid()
      modifies this
      ensures Valid() && View() == Next(old(View()), Edge(0, makesCall), latency)
    {
      hide Next;
      EdgeAlone(View().procs[0], host.zebuCallCnt[..], makesCall, latency);
      var called, before := call, calls;
      var fs := seq(|forks|, j requires 0 <= j < |forks| reads this =>
        forks[j].(latency := if forks[j].latency > 0 then forks[j].latency - 1 else 0));
      match pc {
        case Free =>
          if makesCall {
            cnt, call, pc := (cnt + 1) % WRAP31, true, Requested;
            calls := calls + 1;
          }
        case Requested =>
          call := false;
          if status.word / 2 == cnt {
            pc := Free;
            returned := returned + [status];
          } else {
            pc := Waiting;
          }
        case Waiting =>
          if status.word / 2 == cnt {
            pc := Free;
            returned := returned + [status];
          }
      }
      forks := if called then fs + [Fork(latency, None, before)] else fs;
      assert View().procs[0] == OnEdge(old(View()).procs[0], makesCall, latency);
    }

    /** The host runs the call of the oldest fork, if it has not yet. */
    method HostCalls(ok: bool, data: D)
      requires Valid()
      modifies this, host.zebuCallCnt
      ensures Valid() && View() == Next(old(View()), HostRuns(0, ok, data), latency)
    {
      hide StatusWord;
      if forks != [] && forks[0].result.None? {
        var word := host.ZebuStatus(idx, ok);
        forks := forks[0 := forks[0].(result := Some(Status(word, data, forks[0].serial)))];
        replies := replies + [Reply(ok, data)];
      }
    }

    /** The oldest fork stores its status, if it has waited long enough for one. */
    method StoreStatus()
      requires Valid()
      modifies this
      ensures Valid() && View() == Next(old(View()), Stores(0), latency)
    {
      if forks != [] && forks[0].latency == 0 && forks[0].result.Some? {
        status, forks := forks[0].result.value, forks[1..];
      }
    }
  }
}
