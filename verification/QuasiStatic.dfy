/** The quasi-static transport: multisim_client_quasi_static_push.sv, a channel, and
    multisim_server_quasi_static_pull.sv. */
module QuasiStatic {
  import opened ReadyValid

  /** The registers of the sender: what is queued, the last sample, and the word offered. */
  datatype Sender<D> = Sender(queue: seq<D>, prev: D, vld: bool, push: D)

  function Loaded<D>(sample: D, push: D): Sender<D> { Sender([sample], sample, false, push) }

  function Sample<D(==)>(s: Sender<D>, data: D, rdy: bool): Sender<D>
  {
    var queue := if data != s.prev then s.queue + [data] else s.queue;
    if s.vld && !rdy then s.(queue := queue, prev := data)
    else if queue == [] then s.(queue := queue, prev := data, vld := false)
    else Sender(queue[1..], data, true, queue[0])
  }

  /** Both sides, every sample the sender saw, and every value the receiver's register took. */
  datatype Line<D> = Line(sender: Sender<D>, link: Link<D>, data: D, samples: seq<D>, seen: seq<D>)

  datatype Event<D> = SendEdge(sample: D, ok: bool) | ReceiveEdge(ret: Return<D>) | Other(e: ReadyValid.Event<D>)

  /** Module starts and the connection going down; the clock edges are those of the two modules. */
  predicate Environmental<D>(e: ReadyValid.Event<D>) { !e.PushEdge? && !e.PullEdge? }

  function NewLine<D>(sample: D, zero: D): Line<D>
  {
    Line(Loaded(sample, zero), ReadyValid.Fresh(zero, zero), zero, [sample], [])
  }

  function LineNext<D(==)>(l: Line<D>, e: Event<D>, d: Delays): Line<D>
  {
    match e
    case SendEdge(sample, ok) =>
      l.(sender := Sample(l.sender, sample, l.link.push.rdy),
         link := ReadyValid.Next(l.link, PushEdge(l.sender.vld, l.sender.push, ok), d),
         samples := l.samples + [sample])
    case ReceiveEdge(ret) =>
      l.(link := ReadyValid.Next(l.link, PullEdge(true, ret), d),
         data := if l.link.pull.vld then l.link.pull.data else l.data,
         seen := if l.link.pull.vld then l.seen + [l.link.pull.data] else l.seen)
    case Other(f) => if Environmental(f) then l.(link := ReadyValid.Next(l.link, f, d)) else l
  }

  function LineRun<D(==)>(l: Line<D>, es: seq<Event<D>>, d: Delays): Line<D>
  {
    if es == [] then l else LineNext(LineRun(l, es[..|es| - 1], d), es[|es| - 1], d)
  }

  /** A sequence with its consecutive repeats removed. */
  function Dedup<D(==)>(xs: seq<D>): (ys: seq<D>)
  {
    if |xs| <= 1 then xs
    else
      var front := xs[..|xs| - 1];
      if xs[|xs| - 1] == xs[|xs| - 2] then Dedup(front) else Dedup(front) + [xs[|xs| - 1]]
  }

  lemma {:induction false} DedupIsStutterFree<D>(xs: seq<D>)
    requires xs != []
    ensures var ys := Dedup(xs);
            && ys != [] && ys[0] == xs[0] && ys[|ys| - 1] == xs[|xs| - 1]
            && forall i :: 0 < i < |ys| ==> ys[i] != ys[i - 1]
  {
    if |xs| > 1 {
      DedupIsStutterFree(xs[..|xs| - 1]);
    }
  }

  lemma {:induction false} DedupSnoc<D>(xs: seq<D>, x: D)
    requires xs != []
    ensures Dedup(xs + [x]) == Dedup(xs) + (if x == xs[|xs| - 1] then [] else [x])
  {
    var zs := xs + [x];
    assert zs[..|zs| - 1] == xs && zs[|zs| - 2] == xs[|xs| - 1];
  }

  function Offered<D>(s: Sender<D>): seq<D> { if s.vld then [s.push] else [] }

  /** The samples without repeats are, in order: what the channel accepted, the word offered to it, and
      the queue. */
  ghost predicate LineInv<D(!new)>(l: Line<D>, zero: D)
  {
    && Inv(l.link)
    && l.samples != [] && l.sender.prev == l.samples[|l.samples| - 1]
    && Dedup(l.samples) == l.link.accepted + Offered(l.sender) + l.sender.queue
    && l.seen == l.link.taken
    && l.data == if l.seen == [] then zero else l.seen[|l.seen| - 1]
  }

  /** An edge of the sender passes its words on in order, the new sample last if it is a change. */
  lemma SampleKeeps<D(!new)>(s: Sender<D>, sample: D, rdy: bool)
    ensures var s' := Sample(s, sample, rdy);
            (if s.vld && rdy then [s.push] else []) + (Offered(s') + s'.queue) ==
            Offered(s) + s.queue + (if sample == s.prev then [] else [sample])
  {
  }

  lemma PushEdgeAccepts<D>(l: Link<D>, vld: bool, data: D, ok: bool, d: Delays)
    ensures var l' := ReadyValid.Next(l, PushEdge(vld, data, ok), d);
            l'.accepted == l.accepted + (if vld && l.push.rdy then [data] else []) && l'.taken == l.taken
  {
  }

  lemma SendStep<D(!new)>(l: Line<D>, sample: D, ok: bool, d: Delays, zero: D)
    requires LineInv(l, zero)
    ensures LineInv(LineNext(l, SendEdge(sample, ok), d), zero)
  {
    hide Dedup, Inv, Offered, Sample, ReadyValid.Next;
    var l' := LineNext(l, SendEdge(sample, ok), d);
    InvPush(l.link, l.sender.vld, l.sender.push, ok, d);
    PushEdgeAccepts(l.link, l.sender.vld, l.sender.push, ok, d);
    DedupSnoc(l.samples, sample);
    SampleKeeps(l.sender, sample, l.link.push.rdy);
    PrevIsSample(l.sender, sample, l.link.push.rdy);
    var took := if l.sender.vld && l.link.push.rdy then [l.sender.push] else [];
    assert l'.link.accepted + Offered(l'.sender) + l'.sender.queue ==
           l.link.accepted + (took + (Offered(l'.sender) + l'.sender.queue));
  }

  lemma PrevIsSample<D(!new)>(s: Sender<D>, sample: D, rdy: bool)
    ensures Sample(s, sample, rdy).prev == sample
  {
  }

  lemma LineInvStep<D(!new)>(l: Line<D>, e: Event<D>, d: Delays, zero: D)
    requires LineInv(l, zero)
    ensures LineInv(LineNext(l, e, d), zero)
  {
    hide Dedup, Inv, Sample;
    match e
    case SendEdge(sample, ok) =>
      SendStep(l, sample, ok, d, zero);
    case ReceiveEdge(ret) =>
      InvStep(l.link, PullEdge(true, ret), d);
    case Other(f) =>
      InvStep(l.link, f, d);
  }

  /** Nothing is between the sender's last sample and the receiver's register. */
  predicate Drained<D>(l: Line<D>)
  {
    l.sender.queue == [] && !l.sender.vld && Unsent(l.link.push) == [] && l.link.fifo == [] && !l.link.pull.vld
  }

  /** Over every run: the values the receiver sees after its initial one are a prefix of the sender's
      samples without consecutive repeats, and the receiver has the last sample when the line is
      drained on a connection that stayed up. */
  lemma {:induction false} StutterEquivalent<D(!new)>(sample: D, zero: D, es: seq<Event<D>>, d: Delays)
    ensures var l := LineRun(NewLine(sample, zero), es, d);
            && LineInv(l, zero)
            && l.seen <= Dedup(l.samples)
            && (forall i :: 0 < i < |l.seen| ==> l.seen[i] != l.seen[i - 1])
            && (l.link.up && Drained(l) ==> l.data == l.samples[|l.samples| - 1])
  {
    hide LineNext, LineInv, Dedup, Drained;
    if es == [] {
      FreshLine(sample, zero);
    } else {
      StutterEquivalent(sample, zero, es[..|es| - 1], d);
      LineInvStep(LineRun(NewLine(sample, zero), es[..|es| - 1], d), es[|es| - 1], d, zero);
    }
    SeenSoFar(LineRun(NewLine(sample, zero), es, d), zero);
  }

  lemma FreshLine<D(!new)>(sample: D, zero: D)
    ensures LineInv(NewLine(sample, zero), zero)
  {
  }

  lemma SeenSoFar<D(!new)>(l: Line<D>, zero: D)
    requires LineInv(l, zero)
    ensures l.seen <= Dedup(l.samples)
    ensures forall i :: 0 < i < |l.seen| ==> l.seen[i] != l.seen[i - 1]
    ensures l.link.up && Drained(l) ==> l.data == l.samples[|l.samples| - 1]
  {
    hide Dedup;
    assert l.seen <= Passed(l.link);
    DedupIsStutterFree(l.samples);
  }

  // ---- the receiver can catch up ----

  /** An edge at which the sender may show another word: it shows one exactly if one was queued or the sample is a
      change, the oldest of them. */
  lemma OffersIff<D>(s: Sender<D>, data: D, rdy: bool)
    requires !s.vld || rdy
    ensures var s', words := Sample(s, data, rdy), s.queue + (if data == s.prev then [] else [data]);
            (s'.vld <==> words != []) && (s'.vld ==> [s'.push] + s'.queue == words)
  {
  }

  /** Words that the sender holds, the one on show counted once and the others twice. */
  function ToOffer<D>(s: Sender<D>): nat { 2 * |s.queue| + (if s.vld then 1 else 0) }

  /** The line is up, and the last sample is `x`. */
  ghost predicate Live<D(!new)>(l: Line<D>, zero: D, x: D)
  {
    LineInv(l, zero) && l.link.up && l.samples[|l.samples| - 1] == x
  }

  /** The next useful event: the start of a module, an edge of the sender while it or its push module holds a word,
      then one of the receiver. */
  function Helpful<D>(l: Line<D>, x: D): Event<D>
  {
    if !l.link.push.started then Other(StartPush)
    else if !l.link.pull.started then Other(StartPull)
    else if ToOffer(l.sender) > 0 || Unsent(l.link.push) != [] then SendEdge(x, true)
    else ReceiveEdge(Success(x))
  }

  lemma StartHelpsLine<D(!new)>(l: Line<D>, d: Delays, zero: D, x: D)
    requires Live(l, zero, x)
    ensures var l1 := LineNext(l, Other(StartPush), d); Live(l1, zero, x) && l1.link.push.started
    ensures var l2 := LineNext(l, Other(StartPull), d); Live(l2, zero, x) && l2.link.pull.started && l2.link.push == l.link.push
  {
    hide Dedup, Inv, ReadyValid.Next;
    LineInvStep(l, Other(StartPush), d, zero);
    LineInvStep(l, Other(StartPull), d, zero);
    StartsOnly(l.link, d);
  }

  lemma StartsOnly<D(!new)>(l: Link<D>, d: Delays)
    ensures var l1, l2 := ReadyValid.Next(l, StartPush, d), ReadyValid.Next(l, StartPull, d);
            l1.push.started && l2.pull.started && l2.push == l.push && l1.up == l.up && l2.up == l.up
  {
  }

  lemma SendHelps<D(!new)>(l: Line<D>, d: Delays, zero: D, x: D)
    requires Live(l, zero, x) && l.link.push.started && l.link.pull.started
    requires ToOffer(l.sender) > 0 || Unsent(l.link.push) != []
    ensures var l' := LineNext(l, SendEdge(x, true), d);
            && Live(l', zero, x) && l'.link.push.started && l'.link.pull.started
            && (ToOffer(l'.sender) < ToOffer(l.sender)
                || (ToOffer(l'.sender) == ToOffer(l.sender) && Unsent(l.link.push) != [] && Unsent(l'.link.push) == []))
  {
    hide Dedup, Inv;
    SendStep(l, x, true, d, zero);
    StartedHelds(l.link);
  }

  lemma StartedHelds<D(!new)>(l: Link<D>)
    requires Inv(l)
    ensures l.push.rdy ==> l.push.started
  {
  }

  lemma ReceiveHelps<D(!new)>(l: Line<D>, d: Delays, zero: D, x: D)
    requires Live(l, zero, x) && l.link.pull.started
    requires ToOffer(l.sender) == 0 && Unsent(l.link.push) == [] && ToTake(l.link) > 0
    ensures var l' := LineNext(l, ReceiveEdge(Success(x)), d);
            && Live(l', zero, x) && l'.sender == l.sender && l'.link.push == l.link.push && l'.link.pull.started
            && (ToTake(l'.link) < ToTake(l.link)
                || (ToTake(l'.link) == ToTake(l.link) && EdgesToCall(l'.link.pull) < EdgesToCall(l.link.pull)))
  {
    hide Dedup, Inv, ReadyValid.Next;
    LineInvStep(l, ReceiveEdge(Success(x)), d, zero);
    PullEdgeHelps(l.link, x, d);
  }

  lemma {:induction false} LineRunFirst<D>(l: Line<D>, e: Event<D>, es: seq<Event<D>>, d: Delays)
    ensures LineRun(l, [e] + es, d) == LineRun(LineNext(l, e, d), es, d)
    decreases |es|
  {
    hide LineNext;
    var all := [e] + es;
    if es == [] {
      assert all[..0] == [];
      assert LineRun(l, all, d) == LineNext(LineRun(l, all[..0], d), all[0], d);
    } else {
      LineRunFirst(l, e, es[..|es| - 1], d);
      assert all[..|all| - 1] == [e] + es[..|es| - 1];
    }
  }

  /** From every state of a line that is up, whatever the delays, some edges that repeat the last sample, after the
      start of the modules, drain it: the receiver then has that sample. */
  lemma {:induction false} CanCatchUp<D(!new)>(l: Line<D>, d: Delays, zero: D, x: D) returns (es: seq<Event<D>>)
    requires Live(l, zero, x)
    ensures var l' := LineRun(l, es, d);
            && Live(l', zero, x) && Drained(l') && l'.data == x && l'.seen == Dedup(l'.samples)
    decreases !l.link.push.started, !l.link.pull.started, ToOffer(l.sender), Unsent(l.link.push) != [], ToTake(l.link), EdgesToCall(l.link.pull)
  {
    hide Live, LineNext, Dedup, Drained;
    if l.link.push.started && l.link.pull.started
       && ToOffer(l.sender) == 0 && Unsent(l.link.push) == [] && ToTake(l.link) == 0 {
      es := [];
      AllSeen(l, zero, x);
    } else {
      var e := Helpful(l, x);
      if e.Other? {
        StartHelpsLine(l, d, zero, x);
      } else if e.SendEdge? {
        SendHelps(l, d, zero, x);
      } else {
        ReceiveHelps(l, d, zero, x);
      }
      var rest := CanCatchUp(LineNext(l, e, d), d, zero, x);
      es := [e] + rest;
      LineRunFirst(l, e, rest, d);
    }
  }

  lemma AllSeen<D(!new)>(l: Line<D>, zero: D, x: D)
    requires Live(l, zero, x) && ToOffer(l.sender) == 0 && Unsent(l.link.push) == [] && ToTake(l.link) == 0
    ensures Drained(l) && l.data == x && l.seen == Dedup(l.samples)
  {
    hide Dedup;
    SeenSoFar(l, zero);
    assert l.link.fifo == [] && !l.link.pull.vld;
    NothingLeft(l.link);
  }

  // ---- the modules as objects ----

  class ClientQuasiStaticPush<D(==)> {
    var dataQueue: seq<D>
    var dataPrev: D
    var dataVld: bool
    var dataPush: D

    ghost function View(): Sender<D> reads this { Sender(dataQueue, dataPrev, dataVld, dataPush) }

    constructor (data: D, zero: D)
      ensures View() == Loaded(data, zero)
    {
      dataQueue, dataPrev, dataVld, dataPush := [data], data, false, zero;
    }

    method Posedge(data: D, dataRdy: bool)
      modifies this
      ensures View() == Sample(old(View()), data, dataRdy)
    {
      if data != dataPrev {
        dataQueue := dataQueue + [data];
        dataPrev := data;
      }
      if !dataVld || dataRdy {
        if |dataQueue| > 0 {
          dataPush, dataQueue, dataVld := dataQueue[0], dataQueue[1..], true;
        } else {
          dataVld := false;
        }
      }
    }
  }

  /** The receiver: `seen` are the values it has taken; before the first one its register has its initial value. */
  class ServerQuasiStaticPull<D> {
    var data: D
    ghost const zero: D
    ghost var seen: seq<D>

    ghost predicate Valid() reads this { data == if seen == [] then zero else seen[|seen| - 1] }

    constructor (zero: D)
      ensures Valid() && seen == [] && this.zero == zero
    {
      this.zero := zero;
      data, seen := zero, [];
    }

    method Posedge(dataVld: bool, dataPull: D)
      requires Valid()
      modifies this
      ensures Valid() && seen == old(seen) + (if dataVld then [dataPull] else [])
    {
      if dataVld {
        data, seen := dataPull, seen + [dataPull];
      }
    }
  }

  /** Sender, channel and receiver, clocked by the clocks of the two sides. */
  class QuasiStaticLine<D(==)> {
    const sender: ClientQuasiStaticPush<D>
    const receiver: ServerQuasiStaticPull<D>
    const d: Delays
    var link: Link<D>
    ghost var samples: seq<D>

    ghost function View(): Line<D>
      reads this, sender, receiver
    {
      Line(sender.View(), link, receiver.data, samples, receiver.seen)
    }

    constructor (sample: D, zero: D, d: Delays)
      ensures View() == NewLine(sample, zero) && receiver.Valid() && this.d == d
      ensures fresh(sender) && fresh(receiver)
    {
      sender := new ClientQuasiStaticPush(sample, zero);
      receiver := new ServerQuasiStaticPull(zero);
      link, samples, this.d := ReadyValid.Fresh(zero, zero), [sample], d;
    }

    method SendPosedge(sample: D, ok: bool)
      modifies this, sender
      ensures View() == LineNext(old(View()), SendEdge(sample, ok), d)
    {
      hide ReadyValid.Next, Sample;
      var dataRdy := link.push.rdy;
      link := ReadyValid.Next(link, PushEdge(sender.dataVld, sender.dataPush, ok), d);
      sender.Posedge(sample, dataRdy);
      samples := samples + [sample];
    }

    method ReceivePosedge(ret: Return<D>)
      requires receiver.Valid()
      modifies this, receiver
      ensures receiver.Valid() && View() == LineNext(old(View()), ReceiveEdge(ret), d)
    {
      hide ReadyValid.Next;
      var dataVld, dataPull := link.pull.vld, link.pull.data;
      link := ReadyValid.Next(link, PullEdge(true, ret), d);
      receiver.Posedge(dataVld, dataPull);
    }
  }
}
