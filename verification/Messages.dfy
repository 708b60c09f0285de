module Wrappers {
  datatype Option<+T> = None | Some(value: T)
}

/** Byte strings cut into messages of one fixed size: what a channel puts on its stream. */
module Messages {

  newtype byte = b: int | 0 <= b < 256

  type Msg = seq<byte>

  function Flatten(ms: seq<Msg>): (bs: seq<byte>)
  {
    if ms == [] then [] else ms[0] + Flatten(ms[1..])
  }

  /** The whole messages at the front of a byte string; an incomplete last one is left out. */
  function Chunks(bs: seq<byte>, size: nat): (ms: seq<Msg>)
    requires size > 0
    ensures forall m :: m in ms ==> |m| == size
  {
    if |bs| < size then [] else [bs[..size]] + Chunks(bs[size..], size)
  }

  ghost predicate AllSized(ms: seq<Msg>, size: nat)
  {
    forall m :: m in ms ==> |m| == size
  }

  /** Cutting undoes joining, and bytes short of one message never become one. */
  lemma {:induction false} ChunksFlatten(ms: seq<Msg>, tail: seq<byte>, size: nat)
    requires size > 0 && AllSized(ms, size) && |tail| < size
    ensures Chunks(Flatten(ms) + tail, size) == ms
  {
    if ms == [] {
    } else {
      ChunksFlatten(ms[1..], tail, size);
      var bs := Flatten(ms) + tail;
      assert bs == ms[0] + (Flatten(ms[1..]) + tail);
      assert bs[..size] == ms[0] && bs[size..] == Flatten(ms[1..]) + tail;
    }
  }

  /** What Chunks leaves out: the bytes of an incomplete last message. */
  function Tail(bs: seq<byte>, size: nat): (t: seq<byte>)
    requires size > 0
    ensures |t| < size && |t| <= |bs|
  {
    if |bs| < size then bs else Tail(bs[size..], size)
  }

  /** A string of at least one message: its first message, and the rest. */
  lemma Unfold(bs: seq<byte>, size: nat)
    requires 0 < size <= |bs|
    ensures Chunks(bs, size) == [bs[..size]] + Chunks(bs[size..], size) && Tail(bs, size) == Tail(bs[size..], size)
  {
  }

  lemma Incomplete(bs: seq<byte>, size: nat)
    requires |bs| < size
    ensures Chunks(bs, size) == [] && Tail(bs, size) == bs
  {
  }

  /** What appending `x` to `bs` does: the bytes go to the last message, and complete it when they fill it. */
  ghost predicate Appended(bs: seq<byte>, x: seq<byte>, size: nat)
    requires size > 0
  {
    && (|Tail(bs, size)| + |x| < size ==>
          Chunks(bs + x, size) == Chunks(bs, size) && Tail(bs + x, size) == Tail(bs, size) + x)
    && (|Tail(bs, size)| + |x| == size ==>
          Chunks(bs + x, size) == Chunks(bs, size) + [Tail(bs, size) + x] && Tail(bs + x, size) == [])
  }

  lemma AppendToRest(bs: seq<byte>, x: seq<byte>, size: nat)
    requires 0 < size <= |bs| && Appended(bs[size..], x, size)
    ensures Appended(bs, x, size)
  {
    hide Chunks, Tail;
    Unfold(bs, size);
    Unfold(bs + x, size);
    assert (bs + x)[..size] == bs[..size] && (bs + x)[size..] == bs[size..] + x;
  }

  lemma AppendToIncomplete(bs: seq<byte>, x: seq<byte>, size: nat)
    requires size > 0 && |bs| < size
    ensures Appended(bs, x, size)
  {
    hide Chunks, Tail;
    Incomplete(bs, size);
    if |bs| + |x| < size {
      Incomplete(bs + x, size);
    } else if |bs| + |x| == size {
      Unfold(bs + x, size);
      assert (bs + x)[..size] == bs + x && (bs + x)[size..] == [];
      Incomplete([], size);
    }
  }

  lemma {:induction false} AppendBytes(bs: seq<byte>, x: seq<byte>, size: nat)
    requires size > 0 && |Tail(bs, size)| + |x| <= size
    ensures |Tail(bs, size)| + |x| < size ==>
              Chunks(bs + x, size) == Chunks(bs, size) && Tail(bs + x, size) == Tail(bs, size) + x
    ensures |Tail(bs, size)| + |x| == size ==>
              Chunks(bs + x, size) == Chunks(bs, size) + [Tail(bs, size) + x] && Tail(bs + x, size) == []
  {
    hide Chunks, Tail;
    AppendsTo(bs, x, size);
  }

  lemma {:induction false} AppendsTo(bs: seq<byte>, x: seq<byte>, size: nat)
    requires size > 0
    ensures Appended(bs, x, size)
  {
    hide Appended;
    if |bs| >= size {
      AppendsTo(bs[size..], x, size);
      AppendToRest(bs, x, size);
    } else {
      AppendToIncomplete(bs, x, size);
    }
  }

  lemma FirstMessage(m: Msg, bs: seq<byte>, size: nat)
    requires size > 0 && |m| == size
    ensures Chunks(m + bs, size) == [m] + Chunks(bs, size) && Tail(m + bs, size) == Tail(bs, size)
  {
    hide Chunks, Tail;
    Unfold(m + bs, size);
    assert (m + bs)[..size] == m && (m + bs)[size..] == bs;
  }
}
