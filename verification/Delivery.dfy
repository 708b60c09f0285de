/** Words in, words out: the channel of Channel carrying the byte images of Encoding. */
module Delivery {
  import opened Messages
  import opened Encoding
  import opened Channel

  ghost predicate Fits(vs: seq<Vector>, pads: seq<Vector>, width: nat)
  {
    |pads| == |vs| && forall i :: 0 <= i < |vs| ==> |vs[i]| == width && width + |pads[i]| == 32 * Words(width)
  }

  ghost function EncodeAll(vs: seq<Vector>, pads: seq<Vector>, width: nat, is4state: bool): (ms: seq<Msg>)
    requires Fits(vs, pads, width)
  {
    seq(|vs|, i requires 0 <= i < |vs| && Fits(vs, pads, width) => Encode(vs[i], pads[i], is4state))
  }

  /** Over every run of a channel, the words accepted at the push interface come out of the pull interface
      in order, unchanged in 4-state mode, with X and Z as 0 in 2-state mode; while the connection is up
      and nothing is on the way, all of them have. */
  lemma WordsDelivered(q: Msg, data: Msg, es: seq<Step>, g: Config, vs: seq<Vector>, pads: seq<Vector>,
                       width: nat, is4state: bool)
    requires width > 0 && g.size == MessageSize(width, is4state) && Fits(vs, pads, width)
    requires AcceptedNow(Run(Initial(q, data), es, g)) == EncodeAll(vs, pads, width, is4state)
    ensures var c := Run(Initial(q, data), es, g);
            var out := TakenNow(c) + HeldNow(c);
            && |out| <= |vs|
            && (forall i :: 0 <= i < |out| ==>
                  && |out[i]| == MessageSize(width, is4state)
                  && Decode(out[i], width, is4state) == if is4state then vs[i] else Project(vs[i]))
            && (c.up && Crossed(c) + Remainder(c) == [] && UnsentNow(c) == [] ==> |out| == |vs|)
  {
    hide Encode, Decode, Run;
    ChannelIsFifo(q, data, es, g);
    var c := Run(Initial(q, data), es, g);
    var out := TakenNow(c) + HeldNow(c);
    forall i | 0 <= i < |out|
      ensures out[i] == Encode(vs[i], pads[i], is4state)
      ensures |out[i]| == MessageSize(width, is4state)
      ensures Decode(out[i], width, is4state) == if is4state then vs[i] else Project(vs[i])
    {
      assert out[i] == AcceptedNow(c)[i];
      RoundTrip(vs[i], pads[i], is4state);
    }
  }
}
