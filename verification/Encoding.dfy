/** The byte image of a data word: the packing functions of multisim_client_common.svh and
    multisim_server_common.svh, and the plane copies of multisim_client.cpp and
    multisim_server.cpp. Vectors are least significant bit first. */
module Encoding {
  import opened Messages
  import opened Numbers

  /** A four-valued bit; its (aval, bval) encoding is that of Annex H of IEEE 1800-2017. */
  datatype Logic = L0 | L1 | LX | LZ

  type Vector = seq<Logic>

  function Aval(l: Logic): bool { l.L1? || l.LX? }

  function Bval(l: Logic): bool { l.LX? || l.LZ? }

  function OfPlanes(aval: bool, bval: bool): Logic
  {
    if bval then (if aval then LX else LZ) else (if aval then L1 else L0)
  }

  /** Assignment of a `logic` to a `bit`. */
  function ToBit(l: Logic): bool { l.L1? }

  function OfBit(b: bool): Logic { if b then L1 else L0 }

  /** The 2-state projection of a vector: X and Z become 0. */
  function Project(v: Vector): (p: Vector)
    ensures |p| == |v|
  {
    seq(|v|, i requires 0 <= i < |v| => OfBit(ToBit(v[i])))
  }

  /** PullData32bWidth, PushData32bWidth and buf_32b_size. */
  function Words(width: nat): nat { (width + 31) / 32 }

  /** As few words as hold the vector. */
  lemma WordsHold(width: nat)
    ensures width <= 32 * Words(width) < width + 32
    ensures 32 * Words(32 * Words(width)) == 32 * Words(width)
  {
  }

  function MessageSize(width: nat, is4state: bool): nat
  {
    4 * (if is4state then 2 * Words(width) else Words(width))
  }

  // ---- bits of a 32-bit word, bytes of a word ----

  function Value(bits: seq<bool>): (n: nat)
  {
    if bits == [] then 0 else (if bits[0] then 1 else 0) + 2 * Value(bits[1..])
  }

  function Bits(n: nat, len: nat): (bits: seq<bool>)
    ensures |bits| == len
  {
    if len == 0 then [] else [n % 2 == 1] + Bits(n / 2, len - 1)
  }

  lemma {:induction false} ValueBits(bits: seq<bool>)
    ensures Value(bits) < Pow2(|bits|) && Bits(Value(bits), |bits|) == bits
  {
    if bits != [] {
      ValueBits(bits[1..]);
      var n := Value(bits);
      assert n % 2 == (if bits[0] then 1 else 0) && n / 2 == Value(bits[1..]);
    }
  }

  /** The word of 32 bits. */
  function Word(bits: seq<bool>): uint32
    requires |bits| == 32
  {
    ValueBits(bits);
    Pow2At32();
    Value(bits)
  }

  /** A word in memory, least significant byte first. */
  function WordBytes(w: uint32): (m: Msg)
    ensures |m| == 4
  {
    [(w % 256) as byte, (w / 256 % 256) as byte, (w / 0x1_0000 % 256) as byte, (w / 0x100_0000) as byte]
  }

  function BytesWord(m: Msg): (w: uint32)
    requires |m| == 4
  {
    m[0] as nat + 256 * m[1] as nat + 0x1_0000 * m[2] as nat + 0x100_0000 * m[3] as nat
  }

  lemma BytesOfWord(w: uint32)
    ensures BytesWord(WordBytes(w)) == w
  {
    assert w / 0x1_0000 == w / 256 / 256 && w / 0x100_0000 == w / 256 / 256 / 256;
  }

  function ByteImages(ws: seq<uint32>): seq<Msg>
  {
    seq(|ws|, i requires 0 <= i < |ws| => WordBytes(ws[i]))
  }

  /** The bytes of an array of words, and the array of words in a byte buffer. */
  function Image(ws: seq<uint32>): Msg { Flatten(ByteImages(ws)) }

  function WordsOf(m: Msg): (ws: seq<uint32>)
  {
    var cs := Chunks(m, 4);
    seq(|cs|, i requires 0 <= i < |cs| => BytesWord(cs[i]))
  }

  lemma ImageRoundTrip(ws: seq<uint32>)
    ensures WordsOf(Image(ws)) == ws && |Image(ws)| == 4 * |ws|
  {
    ChunksFlatten(ByteImages(ws), [], 4);
    assert Flatten(ByteImages(ws)) + [] == Image(ws);
    forall i | 0 <= i < |ws| ensures WordsOf(Image(ws))[i] == ws[i] {
      BytesOfWord(ws[i]);
    }
    FlattenLength(ByteImages(ws));
  }

  lemma {:induction false} FlattenLength(ms: seq<Msg>)
    requires AllSized(ms, 4)
    ensures |Flatten(ms)| == 4 * |ms|
  {
    if ms != [] {
      FlattenLength(ms[1..]);
    }
  }

  /** Byte `j` of word `i` is byte `4 * i + j` of the array. */
  lemma {:induction false} FlattenAt(ms: seq<Msg>, i: nat, j: nat)
    requires AllSized(ms, 4) && i < |ms| && j < 4
    ensures |Flatten(ms)| == 4 * |ms| && Flatten(ms)[4 * i + j] == ms[i][j]
  {
    FlattenLength(ms);
    FlattenLength(ms[1..]);
    assert Flatten(ms) == ms[0] + Flatten(ms[1..]);
    if i > 0 {
      FlattenAt(ms[1..], i - 1, j);
      assert Flatten(ms)[4 * i + j] == Flatten(ms[1..])[4 * (i - 1) + j];
    }
  }

  lemma ImageAt(ws: seq<uint32>, i: nat, j: nat)
    requires i < |ws| && j < 4
    ensures |Image(ws)| == 4 * |ws| && Image(ws)[4 * i + j] == WordBytes(ws[i])[j]
  {
    FlattenAt(ByteImages(ws), i, j);
  }

  // ---- planes ----

  /** Slice `i` of the padded vector: data_tmp[i*32+:32]. */
  function Slice(tmp: Vector, i: nat): (s: Vector)
    requires 32 * i + 32 <= |tmp|
    ensures |s| == 32
  {
    tmp[32 * i..32 * i + 32]
  }

  function AvalWord(s: Vector): uint32
    requires |s| == 32
  {
    Word(seq(32, i requires 0 <= i < 32 => Aval(s[i])))
  }

  function BvalWord(s: Vector): uint32
    requires |s| == 32
  {
    Word(seq(32, i requires 0 <= i < 32 => Bval(s[i])))
  }

  function BitWord(s: Vector): uint32
    requires |s| == 32
  {
    Word(seq(32, i requires 0 <= i < 32 => ToBit(s[i])))
  }

  function OfPlaneWords(a: uint32, b: uint32): (s: Vector)
    ensures |s| == 32
  {
    seq(32, i requires 0 <= i < 32 => OfPlanes(Bits(a, 32)[i], Bits(b, 32)[i]))
  }

  function OfWord(a: uint32): (s: Vector)
    ensures |s| == 32
  {
    seq(32, i requires 0 <= i < 32 => OfBit(Bits(a, 32)[i]))
  }

  lemma PlanesRoundTrip(s: Vector)
    requires |s| == 32
    ensures OfPlaneWords(AvalWord(s), BvalWord(s)) == s
    ensures OfWord(BitWord(s)) == Project(s)
  {
    ValueBits(seq(32, i requires 0 <= i < 32 => Aval(s[i])));
    ValueBits(seq(32, i requires 0 <= i < 32 => Bval(s[i])));
    ValueBits(seq(32, i requires 0 <= i < 32 => ToBit(s[i])));
  }

  // ---- push ----

  /** The words of a message: {aval..., bval...} or the 2-state words. */
  function PushWords(data: Vector, pad: Vector, is4state: bool): (ws: seq<uint32>)
    requires |data| + |pad| == 32 * Words(|data|)
    ensures |ws| == if is4state then 2 * Words(|data|) else Words(|data|)
  {
    var n, tmp := Words(|data|), data + pad;
    if is4state then
      seq(n, i requires 0 <= i < n => AvalWord(Slice(tmp, i))) + seq(n, i requires 0 <= i < n => BvalWord(Slice(tmp, i)))
    else
      seq(n, i requires 0 <= i < n => BitWord(Slice(tmp, i)))
  }

  function Encode(data: Vector, pad: Vector, is4state: bool): Msg
    requires |data| + |pad| == 32 * Words(|data|)
  {
    Image(PushWords(data, pad, is4state))
  }

  /** multisim_*_push_packed: one word, or one pair of planes, per slice of the padded vector; `pad`
      is whatever the upper bits of data_tmp hold. */
  method PushPacked(data: Vector, pad: Vector, is4state: bool) returns (aval: array<uint32>, bval: array<uint32>)
    requires |data| + |pad| == 32 * Words(|data|)
    ensures fresh(aval) && fresh(bval) && aval.Length == bval.Length == Words(|data|)
    ensures var ws := PushWords(data, pad, is4state);
            if is4state then aval[..] + bval[..] == ws else aval[..] == ws
  {
    var n := Words(|data|);
    var dataTmp := data + pad;
    aval, bval := new uint32[n], new uint32[n];
    for i := 0 to n
      invariant forall j :: 0 <= j < i ==>
                  aval[j] == (if is4state then AvalWord(Slice(dataTmp, j)) else BitWord(Slice(dataTmp, j)))
      invariant forall j :: 0 <= j < i && is4state ==> bval[j] == BvalWord(Slice(dataTmp, j))
    {
      if is4state {
        aval[i], bval[i] := AvalWord(Slice(dataTmp, i)), BvalWord(Slice(dataTmp, i));
      } else {
        aval[i] := BitWord(Slice(dataTmp, i));
      }
    }
    ghost var ws := PushWords(data, pad, is4state);
    assert aval[..] == ws[..n];
    assert is4state ==> bval[..] == ws[n..];
  }

  /** The plane copy of multisim_*_push_core. */
  method SendBuffer(aval: array<uint32>, bval: array<uint32>) returns (sendBuf: array<uint32>)
    requires aval.Length == bval.Length
    ensures fresh(sendBuf) && sendBuf[..] == aval[..] + bval[..]
  {
    var n := aval.Length;
    sendBuf := new uint32[2 * n];
    for i := 0 to n
      invariant forall j :: 0 <= j < i ==> sendBuf[j] == aval[j] && sendBuf[n + j] == bval[j]
    {
      sendBuf[i] := aval[i];
      sendBuf[n + i] := bval[i];
    }
  }

  // ---- pull ----

  /** The bit of index `i` in a received buffer of words. */
  function PulledBit(ws: seq<uint32>, i: nat, n: nat, is4state: bool): Logic
    requires i < 32 * n && |ws| == if is4state then 2 * n else n
  {
    if is4state then OfPlaneWords(ws[i / 32], ws[n + i / 32])[i % 32] else OfWord(ws[i / 32])[i % 32]
  }

  function PullVector(ws: seq<uint32>, width: nat, is4state: bool): (v: Vector)
    requires |ws| == if is4state then 2 * Words(width) else Words(width)
    ensures |v| == width
  {
    seq(width, i requires 0 <= i < width => PulledBit(ws, i, Words(width), is4state))
  }

  function Decode(m: Msg, width: nat, is4state: bool): (v: Vector)
    requires |m| == MessageSize(width, is4state)
    ensures |v| == width
  {
    WordCount(m);
    PullVector(WordsOf(m), width, is4state)
  }

  lemma {:induction false} WordCount(m: Msg)
    ensures |Chunks(m, 4)| == |m| / 4
  {
    if |m| >= 4 {
      WordCount(m[4..]);
    }
  }

  /** multisim_*_pull_core then multisim_*_pull_packed on a received buffer. */
  method PullBuffer(readBuf: array<uint32>, width: nat, is4state: bool) returns (data: Vector)
    requires readBuf.Length == if is4state then 2 * Words(width) else Words(width)
    ensures data == PullVector(readBuf[..], width, is4state)
  {
    var n := Words(width);
    var aval, bval := new uint32[n], new uint32[n];
    for i := 0 to n
      invariant forall j :: 0 <= j < i ==> aval[j] == readBuf[j] && (is4state ==> bval[j] == readBuf[n + j])
    {
      aval[i] := readBuf[i];
      if is4state {
        bval[i] := readBuf[n + i];
      }
    }
    var dataTmp: Vector := [];
    for i := 0 to n
      invariant |dataTmp| == 32 * i
      invariant forall j :: 0 <= j < 32 * i ==> dataTmp[j] == PulledBit(readBuf[..], j, n, is4state)
    {
      var slice := if is4state then OfPlaneWords(aval[i], bval[i]) else OfWord(aval[i]);
      forall j | 32 * i <= j < 32 * i + 32
        ensures slice[j - 32 * i] == PulledBit(readBuf[..], j, n, is4state)
      {
        assert j / 32 == i && j % 32 == j - 32 * i;
      }
      dataTmp := dataTmp + slice;
    }
    data := dataTmp[..width];
  }

  // ---- round trip ----

  /** Whatever the padding holds, the receiver gets the vector back, or its 2-state projection; the
      size of the message depends on the number of words and the 4-state flag only. */
  lemma RoundTrip(data: Vector, pad: Vector, is4state: bool)
    requires |data| + |pad| == 32 * Words(|data|)
    ensures |Encode(data, pad, is4state)| == MessageSize(|data|, is4state)
    ensures Decode(Encode(data, pad, is4state), |data|, is4state) == if is4state then data else Project(data)
  {
    hide WordsOf, Image, AvalWord, BvalWord, BitWord, OfPlaneWords, OfWord;
    var ws := PushWords(data, pad, is4state);
    ImageRoundTrip(ws);
    var n, tmp := Words(|data|), data + pad;
    forall i | 0 <= i < |data|
      ensures PulledBit(ws, i, n, is4state) == if is4state then data[i] else Project(data)[i]
    {
      var s := Slice(tmp, i / 32);
      assert s[i % 32] == tmp[i] == data[i];
      PlanesRoundTrip(s);
    }
  }

  // ---- what a message holds ----

  predicate BitOf(n: nat, k: nat) { n / Pow2(k) % 2 == 1 }

  lemma {:induction false} BitsAt(n: nat, len: nat, k: nat)
    requires k < len
    ensures Bits(n, len)[k] == BitOf(n, k)
  {
    if k > 0 {
      BitsAt(n / 2, len - 1, k - 1);
      HalfThenShift(n, Pow2(k - 1));
    }
  }

  lemma HalfThenShift(n: nat, p: nat)
    requires p > 0
    ensures n / 2 / p == n / (2 * p)
  {
    var q, r := n / 2 / p, n / 2 % p;
    assert n / 2 == p * q + r;
    Quotient(n, 2 * p, q, 2 * r + n % 2);
  }

  /** Word `i` of a message. */
  function WordAt(m: Msg, i: nat): uint32
    requires 4 * i + 4 <= |m|
  {
    BytesWord(m[4 * i..4 * i + 4])
  }

  lemma ImageWordAt(ws: seq<uint32>, i: nat)
    requires i < |ws|
    ensures |Image(ws)| == 4 * |ws| && WordAt(Image(ws), i) == ws[i]
  {
    hide Image, WordBytes, BytesWord;
    var m := Image(ws);
    ImageAt(ws, i, 0);
    forall j | 0 <= j < 4 ensures m[4 * i..4 * i + 4][j] == WordBytes(ws[i])[j] {
      ImageAt(ws, i, j);
    }
    assert m[4 * i..4 * i + 4] == WordBytes(ws[i]);
    BytesOfWord(ws[i]);
  }

  lemma PlaneBits(s: Vector, k: nat)
    requires |s| == 32 && k < 32
    ensures Bits(AvalWord(s), 32)[k] == Aval(s[k]) && Bits(BvalWord(s), 32)[k] == Bval(s[k])
    ensures Bits(BitWord(s), 32)[k] == ToBit(s[k])
  {
    ValueBits(seq(32, i requires 0 <= i < 32 => Aval(s[i])));
    ValueBits(seq(32, i requires 0 <= i < 32 => Bval(s[i])));
    ValueBits(seq(32, i requires 0 <= i < 32 => ToBit(s[i])));
  }

  /** Bit `b` of a vector is bit `b % 32` of word `b / 32` of its message: of the aval plane, and of the bval plane
      that follows it, in 4-state mode. */
  lemma MessageLayout(data: Vector, pad: Vector, is4state: bool, b: nat)
    requires |data| + |pad| == 32 * Words(|data|) && b < |data|
    ensures var m, n := Encode(data, pad, is4state), Words(|data|);
            && |m| == MessageSize(|data|, is4state) && b / 32 < n
            && BitOf(WordAt(m, b / 32), b % 32) == (if is4state then Aval(data[b]) else ToBit(data[b]))
            && (is4state ==> BitOf(WordAt(m, n + b / 32), b % 32) == Bval(data[b]))
  {
    hide Image, WordAt, AvalWord, BvalWord, BitWord, Bits, BitOf;
    var ws, n, tmp := PushWords(data, pad, is4state), Words(|data|), data + pad;
    var i := b / 32;
    ImageWordAt(ws, i);
    var s := Slice(tmp, i);
    assert s[b % 32] == tmp[b] == data[b];
    PlaneBits(s, b % 32);
    BitsAt(ws[i], 32, b % 32);
    if is4state {
      BitsAt(ws[n + i], 32, b % 32);
      ImageWordAt(ws, n + i);
    }
  }
}
