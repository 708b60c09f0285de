/** The messages of the read/write examples: commands of three 64-bit words, responses of one. */
module MemoryWire {
  import opened Numbers
  import opened Messages
  import opened Encoding
  import opened Memory

  const CMD_SIZE: nat := 24
  const RSP_SIZE: nat := 8
  const EXIT_SIZE: nat := 4

  /** The two 32-bit words of a 64-bit one, the low one first. */
  function Halves(w: uint64): (ws: seq<uint32>)
    ensures |ws| == 2
  {
    [w % 0x1_0000_0000, w / 0x1_0000_0000]
  }

  function Joined(lo: uint32, hi: uint32): uint64 { lo + 0x1_0000_0000 * hi }

  function CmdBytes(c: Cmd): Msg { Image(Halves(c.rwb) + Halves(c.address) + Halves(c.wdata)) }

  function BytesCmd(m: Msg): Cmd
    requires |m| == CMD_SIZE
  {
    WordCount(m);
    var ws := WordsOf(m);
    Cmd(Joined(ws[0], ws[1]), Joined(ws[2], ws[3]), Joined(ws[4], ws[5]))
  }

  function RspBytes(r: uint64): Msg { Image(Halves(r)) }

  function BytesRsp(m: Msg): uint64
    requires |m| == RSP_SIZE
  {
    WordCount(m);
    Joined(WordsOf(m)[0], WordsOf(m)[1])
  }

  lemma CmdRoundTrip(c: Cmd)
    ensures |CmdBytes(c)| == CMD_SIZE && BytesCmd(CmdBytes(c)) == c
  {
    hide WordsOf, Image;
    ImageRoundTrip(Halves(c.rwb) + Halves(c.address) + Halves(c.wdata));
  }

  lemma RspRoundTrip(r: uint64)
    ensures |RspBytes(r)| == RSP_SIZE && BytesRsp(RspBytes(r)) == r
  {
    hide WordsOf, Image;
    ImageRoundTrip(Halves(r));
  }

  /** Byte `n` of a 64-bit word. */
  function ByteOf(w: uint64, n: nat): nat
    requires n < 8
  {
    w / Pow2(8 * n) % 256
  }

  /** Word `f` of a command: what to do, where, and with what. */
  function Field(c: Cmd, f: nat): uint64
    requires f < 3
  {
    if f == 0 then c.rwb else if f == 1 then c.address else c.wdata
  }

  lemma HalfBytes(w: uint64, n: nat)
    requires n < 8
    ensures WordBytes(Halves(w)[n / 4])[n % 4] as nat == ByteOf(w, n)
  {
    assert Pow2(0) == 1 && Pow2(8) == 256 && Pow2(16) == 0x1_0000 && Pow2(24) == 0x100_0000;
    Pow2At32();
    assert Pow2(40) == 0x100_0000_0000;
    assert Pow2(48) == 0x1_0000_0000_0000;
    assert Pow2(56) == 0x100_0000_0000_0000;
    var lo, hi := w % 0x1_0000_0000, w / 0x1_0000_0000;
    assert w == lo + 0x1_0000_0000 * hi;
    if n < 4 {
      LowBytes(w, lo, hi, n);
    } else {
      HighBytes(w, hi, n);
    }
  }

  lemma LowBytes(w: uint64, lo: uint32, hi: uint32, n: nat)
    requires w == lo + 0x1_0000_0000 * hi && n < 4
    ensures n == 0 ==> w % 256 == lo % 256
    ensures n == 1 ==> w / 256 % 256 == lo / 256 % 256
    ensures n == 2 ==> w / 0x1_0000 % 256 == lo / 0x1_0000 % 256
    ensures n == 3 ==> w / 0x100_0000 % 256 == lo / 0x100_0000
  {
    Peel(w, lo, 0x100_0000 * hi);
    Peel(w / 256, lo / 256, 0x1_0000 * hi);
    Peel(w / 256 / 256, lo / 256 / 256, 256 * hi);
    Peel(w / 256 / 256 / 256, lo / 256 / 256 / 256, hi);
    Shifts(w);
    Shifts(lo);
  }

  lemma Peel(w: nat, lo: nat, t: nat)
    requires w == lo + 256 * t
    ensures w % 256 == lo % 256 && w / 256 == lo / 256 + t
  {
  }

  lemma Shifts(w: nat)
    ensures w / 0x1_0000 == w / 256 / 256 && w / 0x100_0000 == w / 256 / 256 / 256
  {
  }

  lemma HighBytes(w: uint64, hi: uint32, n: nat)
    requires hi == w / 0x1_0000_0000 && 4 <= n < 8
    ensures n == 4 ==> w / 0x1_0000_0000 % 256 == hi % 256
    ensures n == 5 ==> w / 0x100_0000_0000 % 256 == hi / 256 % 256
    ensures n == 6 ==> w / 0x1_0000_0000_0000 % 256 == hi / 0x1_0000 % 256
    ensures n == 7 ==> w / 0x100_0000_0000_0000 % 256 == hi / 0x100_0000
  {
    assert w / 0x100_0000_0000 == hi / 256;
    assert w / 0x1_0000_0000_0000 == hi / 0x1_0000;
    assert w / 0x100_0000_0000_0000 == hi / 0x100_0000;
  }

  /** The message of a command: its three words in order, each least significant byte first. */
  lemma CmdByteAt(c: Cmd, f: nat, n: nat)
    requires f < 3 && n < 8
    ensures |CmdBytes(c)| == CMD_SIZE && CmdBytes(c)[8 * f + n] as nat == ByteOf(Field(c, f), n)
  {
    hide Image, WordBytes, ByteOf;
    var ws := Halves(c.rwb) + Halves(c.address) + Halves(c.wdata);
    ImageAt(ws, 2 * f + n / 4, n % 4);
    assert ws[2 * f + n / 4] == Halves(Field(c, f))[n / 4];
    HalfBytes(Field(c, f), n);
  }

  lemma RspByteAt(r: uint64, n: nat)
    requires n < 8
    ensures |RspBytes(r)| == RSP_SIZE && RspBytes(r)[n] as nat == ByteOf(r, n)
  {
    hide Image, WordBytes, ByteOf;
    ImageAt(Halves(r), n / 4, n % 4);
    HalfBytes(r, n);
  }

  function Cmds(ms: seq<Msg>): (cs: seq<Cmd>)
    requires AllSized(ms, CMD_SIZE)
    ensures |cs| == |ms|
  {
    seq(|ms|, i requires 0 <= i < |ms| => BytesCmd(ms[i]))
  }

  function CmdMsgs(cs: seq<Cmd>): (ms: seq<Msg>)
    ensures |ms| == |cs|
  {
    seq(|cs|, i requires 0 <= i < |cs| => CmdBytes(cs[i]))
  }

  function Rsps(ms: seq<Msg>): (rs: seq<uint64>)
    requires AllSized(ms, RSP_SIZE)
    ensures |rs| == |ms|
  {
    seq(|ms|, i requires 0 <= i < |ms| => BytesRsp(ms[i]))
  }

  function RspMsgs(rs: seq<uint64>): (ms: seq<Msg>)
    ensures |ms| == |rs|
  {
    seq(|rs|, i requires 0 <= i < |rs| => RspBytes(rs[i]))
  }
}
