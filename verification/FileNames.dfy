/** Names of the files of a channel: the FNV-1a hash and the shortened names of
    socket_server/info_file.h, and the socket path of socket_server/unix_socket.h. */
module FileNames {
  import opened Wrappers
  import opened Messages
  import opened Numbers

  type Text = seq<byte>

  const FNV_OFFSET: uint64 := 14695981039346656037

  /** The exclusive or of the low `n` bits. */
  function Xor(a: nat, b: nat, n: nat): (x: nat)
  {
    if n == 0 then 0 else (a + b) % 2 + 2 * Xor(a / 2, b / 2, n - 1)
  }

  lemma {:induction false} XorBound(a: nat, b: nat, n: nat)
    ensures Xor(a, b, n) < Pow2(n)
  {
    if n > 0 {
      XorBound(a / 2, b / 2, n - 1);
    }
  }

  /** hash ^ c */
  function XorByte(h: uint64, c: byte): uint64
  {
    XorBound(h, c as nat, 64);
    Pow2At64();
    Xor(h, c as nat, 64)
  }

  /** The product with the 64-bit FNV prime, modulo 2^64. */
  function TimesPrime(h: uint64): uint64 { h * 1099511628211 % 0x1_0000_0000_0000_0000 }

  /** The product with the inverse of the prime modulo 2^64. */
  function OverPrime(h: uint64): uint64 { h * 14886173955864302971 % 0x1_0000_0000_0000_0000 }

  function FnvStep(h: uint64, c: byte): uint64 { TimesPrime(XorByte(h, c)) }

  /** The step undone. */
  function Unstep(h: uint64, c: byte): uint64 { XorByte(OverPrime(h), c) }

  function Fnv(h: uint64, name: Text): uint64
    decreases |name|
  {
    if name == [] then h else Fnv(FnvStep(h, name[0]), name[1..])
  }

  lemma {:induction false} XorTwice(a: nat, b: nat, n: nat)
    requires a < Pow2(n)
    ensures Xor(Xor(a, b, n), b, n) == a
  {
    if n > 0 {
      XorTwice(a / 2, b / 2, n - 1);
      var x := Xor(a, b, n);
      BitAndRest((a + b) % 2, Xor(a / 2, b / 2, n - 1), x);
      BitTwice(a, b, x);
    }
  }

  lemma BitAndRest(bit: nat, rest: nat, x: nat)
    requires bit < 2 && x == bit + 2 * rest
    ensures x % 2 == bit && x / 2 == rest
  {
  }

  lemma BitTwice(a: nat, b: nat, x: nat)
    requires x % 2 == (a + b) % 2
    ensures (x + b) % 2 == a % 2
  {
  }

  lemma {:induction false} XorCommutes(a: nat, b: nat, n: nat)
    ensures Xor(a, b, n) == Xor(b, a, n)
  {
    if n > 0 {
      XorCommutes(a / 2, b / 2, n - 1);
    }
  }

  lemma XorByteTwice(h: uint64, c: byte)
    ensures XorByte(XorByte(h, c), c) == h
  {
    Pow2At64();
    XorTwice(h, c as nat, 64);
  }

  /** For one hash, different bytes give different results. */
  lemma XorTellsBytes(h: uint64, c: byte, d: byte)
    requires XorByte(h, c) == XorByte(h, d)
    ensures c == d
  {
    Pow2At64();
    XorCommutes(h, c as nat, 64);
    XorCommutes(h, d as nat, 64);
    XorTwice(c as nat, h, 64);
    XorTwice(d as nat, h, 64);
  }

  lemma PrimeIsInvertible(x: uint64)
    ensures OverPrime(TimesPrime(x)) == x && TimesPrime(OverPrime(x)) == x
  {
    var k := x * 1099511628211 / 0x1_0000_0000_0000_0000;
    assert TimesPrime(x) * 14886173955864302971 ==
           x + 0x1_0000_0000_0000_0000 * (887285111055 * x - 14886173955864302971 * k);
    RemainderOf(x, 887285111055 * x - 14886173955864302971 * k, TimesPrime(x) * 14886173955864302971);
    var j := x * 14886173955864302971 / 0x1_0000_0000_0000_0000;
    assert OverPrime(x) * 1099511628211 == x + 0x1_0000_0000_0000_0000 * (887285111055 * x - 1099511628211 * j);
    RemainderOf(x, 887285111055 * x - 1099511628211 * j, OverPrime(x) * 1099511628211);
  }

  lemma RemainderOf(x: uint64, q: int, n: nat)
    requires n == x + 0x1_0000_0000_0000_0000 * q
    ensures n % 0x1_0000_0000_0000_0000 == x
  {
  }

  /** A step is a bijection on the hash, for each byte, and tells bytes apart, for each hash. */
  lemma StepIsBijective(h: uint64, c: byte, d: byte)
    ensures Unstep(FnvStep(h, c), c) == h && FnvStep(Unstep(h, c), c) == h
    ensures FnvStep(h, c) == FnvStep(h, d) ==> c == d
  {
    hide XorByte, TimesPrime, OverPrime;
    PrimeIsInvertible(XorByte(h, c));
    PrimeIsInvertible(XorByte(h, d));
    PrimeIsInvertible(h);
    XorByteTwice(h, c);
    XorByteTwice(OverPrime(h), c);
    if FnvStep(h, c) == FnvStep(h, d) {
      XorTellsBytes(h, c, d);
    }
  }

  lemma {:induction false} SameSuffixKeepsApart(g: uint64, h: uint64, name: Text)
    requires g != h
    ensures Fnv(g, name) != Fnv(h, name)
    decreases |name|
  {
    hide FnvStep, Unstep;
    if name != [] {
      StepIsBijective(g, name[0], name[0]);
      StepIsBijective(h, name[0], name[0]);
      SameSuffixKeepsApart(FnvStep(g, name[0]), FnvStep(h, name[0]), name[1..]);
    }
  }

  /** Two names of one length that differ in exactly one byte. */
  predicate Neighbours(a: Text, b: Text, i: nat)
  {
    |a| == |b| && i < |a| && a[i] != b[i] && a[..i] == b[..i] && a[i + 1..] == b[i + 1..]
  }

  lemma {:induction false} NeighboursHashApart(h: uint64, a: Text, b: Text, i: nat)
    requires Neighbours(a, b, i)
    ensures Fnv(h, a) != Fnv(h, b)
    decreases i
  {
    hide FnvStep, Unstep;
    if i == 0 {
      StepIsBijective(h, a[0], b[0]);
      assert a[0 + 1..] == b[0 + 1..];
      SameSuffixKeepsApart(FnvStep(h, a[0]), FnvStep(h, b[0]), a[1..]);
    } else {
      assert a[..i][0] == a[0] && b[..i][0] == b[0];
      assert a[1..][..i - 1] == a[..i][1..] && b[1..][..i - 1] == b[..i][1..];
      assert a[1..][i..] == a[i + 1..] && b[1..][i..] == b[i + 1..];
      NeighboursHashApart(FnvStep(h, a[0]), a[1..], b[1..], i - 1);
    }
  }

  // ---- the printed hash ----

  function HexDigit(d: nat): byte
    requires d < 16
  {
    if d < 10 then (48 + d) as byte else (87 + d) as byte
  }

  /** The last `n` hexadecimal digits of `h`. */
  function Hex(h: nat, n: nat): (t: Text)
    ensures |t| == n
  {
    if n == 0 then [] else Hex(h / 16, n - 1) + [HexDigit(h % 16)]
  }

  function Pow16(n: nat): nat { if n == 0 then 1 else 16 * Pow16(n - 1) }

  lemma {:induction false} HexIsInjective(g: nat, h: nat, n: nat)
    requires g < Pow16(n) && h < Pow16(n) && Hex(g, n) == Hex(h, n)
    ensures g == h
  {
    if n > 0 {
      assert Hex(g, n)[..n - 1] == Hex(g / 16, n - 1) && Hex(h, n)[..n - 1] == Hex(h / 16, n - 1);
      assert Hex(g, n)[n - 1] == HexDigit(g % 16) && Hex(h, n)[n - 1] == HexDigit(h % 16);
      HexIsInjective(g / 16, h / 16, n - 1);
    }
  }

  /** fnv1a_hash_str */
  function HashText(name: Text): (t: Text)
    ensures |t| == 16
  {
    Hex(Fnv(FNV_OFFSET, name), 16)
  }

  method Fnv1aHashStr(name: Text) returns (t: Text)
    ensures t == HashText(name)
  {
    var hash := FNV_OFFSET;
    for i := 0 to |name|
      invariant Fnv(hash, name[i..]) == Fnv(FNV_OFFSET, name)
    {
      assert name[i..][1..] == name[i + 1..];
      hash := FnvStep(hash, name[i]);
    }
    assert name[|name|..] == [];
    t := Hex(hash, 16);
  }

  lemma HashesApart(a: Text, b: Text, i: nat)
    requires Neighbours(a, b, i)
    ensures HashText(a) != HashText(b)
  {
    hide Fnv, Hex;
    NeighboursHashApart(FNV_OFFSET, a, b, i);
    Pow16At16();
    if HashText(a) == HashText(b) {
      HexIsInjective(Fnv(FNV_OFFSET, a), Fnv(FNV_OFFSET, b), 16);
    }
  }

  lemma Pow16At16()
    ensures Pow16(16) == 0x1_0000_0000_0000_0000
  {
    assert Pow16(4) == 0x1_0000;
    assert Pow16(8) == 0x1_0000_0000;
    assert Pow16(12) == 0x1_0000_0000_0000;
  }

  /** The number that a hexadecimal digit stands for. */
  function DigitOf(c: byte): nat { if c >= 97 then c as nat - 87 else if c >= 48 then c as nat - 48 else 0 }

  /** The number that a hexadecimal text denotes. */
  function Denotes(t: Text): nat
  {
    if t == [] then 0 else 16 * Denotes(t[..|t| - 1]) + DigitOf(t[|t| - 1])
  }

  lemma {:induction false} HexDenotes(h: nat, n: nat)
    requires h < Pow16(n)
    ensures Denotes(Hex(h, n)) == h
    ensures forall c :: c in Hex(h, n) ==> 48 <= c < 58 || 97 <= c < 103
  {
    if n > 0 {
      HexDenotes(h / 16, n - 1);
      assert Hex(h, n)[..n - 1] == Hex(h / 16, n - 1);
    }
  }

  /** The text of a name is its hash in base 16, in lower case. */
  lemma HashTextDenotes(name: Text)
    ensures Denotes(HashText(name)) == Fnv(FNV_OFFSET, name)
    ensures forall c :: c in HashText(name) ==> 48 <= c < 58 || 97 <= c < 103
  {
    hide Fnv, Hex, Denotes;
    Pow16At16();
    HexDenotes(Fnv(FNV_OFFSET, name), 16);
  }

  lemma {:induction false} XorZero(a: nat, n: nat)
    requires a < Pow2(n)
    ensures Xor(a, 0, n) == a
  {
    if n > 0 {
      XorZero(a / 2, n - 1);
    }
  }

  /** Two values of the published test vectors of FNV-1a, for the empty name and for "a". */
  lemma PublishedHashes()
    ensures Fnv(FNV_OFFSET, []) == 0xcbf2_9ce4_8422_2325
    ensures Fnv(FNV_OFFSET, Ascii("a")) == 0xaf63_dc4c_8601_ec8c
  {
    hide FnvStep;
    StepOfA();
    var a := Ascii("a");
    assert a == [97 as byte] && a[1..] == [];
    assert Fnv(FNV_OFFSET, a) == Fnv(FnvStep(FNV_OFFSET, a[0]), a[1..]);
  }

  lemma StepOfA()
    ensures FnvStep(FNV_OFFSET, 97) == 0xaf63_dc4c_8601_ec8c
  {
    hide Xor;
    XorOfA();
  }

  lemma XorStep(a: nat, b: nat, n: nat, x: nat)
    requires n > 0 && Xor(a / 2, b / 2, n - 1) == x
    ensures Xor(a, b, n) == (a + b) % 2 + 2 * x
  {
  }

  lemma XorOfA()
    ensures Xor(0xcbf2_9ce4_8422_2325, 97, 64) == 0xcbf2_9ce4_8422_2344
  {
    Pow2At57();
    hide Xor, Pow2;
    var h: nat := 0xcbf2_9ce4_8422_2325;
    XorZero(h / 128, 57);
    XorStep(h / 64, 1, 58, 0x197e539c9084446);
    XorStep(h / 32, 3, 59, 0x32fca739210888d);
    XorStep(h / 16, 6, 60, 0x65f94e72421111a);
    XorStep(h / 8, 12, 61, 0xcbf29ce48422234);
    XorStep(h / 4, 24, 62, 0x197e539c90844468);
    XorStep(h / 2, 48, 63, 0x32fca739210888d1);
    XorStep(h, 97, 64, 0x65f94e72421111a2);
  }

  lemma Pow2At57()
    ensures Pow2(57) == 0x200_0000_0000_0000
  {
    Pow2At64();
  }

  // ---- file names ----

  function Ascii(s: string): (t: Text)
    ensures |t| == |s|
  {
    seq(|s|, i requires 0 <= i < |s| => (s[i] as int % 256) as byte)
  }

  /** The file of info_file_path, without its directory. */
  function InfoFileName(prefix: Text, name: Text): Text
  {
    var file := prefix + name + Ascii(".txt");
    if |file| > 255 then prefix + name[..Min(200, |name|)] + Ascii("_") + HashText(name) + Ascii(".txt") else file
  }

  function UnixSocketFile(name: Text): Text
  {
    if |name| <= 64 then Ascii("server_") + name + Ascii(".sock")
    else Ascii("server_") + name[..40] + Ascii("_") + HashText(name) + Ascii(".sock")
  }

  /** The part of a text between two others. */
  lemma Middle(p: Text, a: Text, q: Text)
    ensures (p + a + q)[|p|..|p| + |a|] == a
  {
  }

  /** Neighbouring channels never share an info file or a Unix socket, and file names fit. */
  lemma NeighbourFilesApart(prefix: Text, a: Text, b: Text, i: nat)
    requires Neighbours(a, b, i)
    ensures InfoFileName(prefix, a) != InfoFileName(prefix, b)
    ensures UnixSocketFile(a) != UnixSocketFile(b)
  {
    hide HashText;
    HashesApart(a, b, i);
    if |prefix + a + Ascii(".txt")| > 255 {
      var n := Min(200, |a|);
      Middle(prefix + a[..n] + Ascii("_"), HashText(a), Ascii(".txt"));
      Middle(prefix + b[..n] + Ascii("_"), HashText(b), Ascii(".txt"));
    } else {
      Middle(prefix, a, Ascii(".txt"));
      Middle(prefix, b, Ascii(".txt"));
    }
    if |a| > 64 {
      Middle(Ascii("server_") + a[..40] + Ascii("_"), HashText(a), Ascii(".sock"));
      Middle(Ascii("server_") + b[..40] + Ascii("_"), HashText(b), Ascii(".sock"));
    } else {
      Middle(Ascii("server_"), a, Ascii(".sock"));
      Middle(Ascii("server_"), b, Ascii(".sock"));
    }
  }

  // ---- the socket path ----

  const SUN_PATH: nat := 108

  /** unix_socket_addr: the path put in the address, given the descriptor that opening the directory
      returns, if it opens; `None` is -1. */
  function SocketPath(dir: Text, file: Text, dirfd: Option<nat>): Option<Text>
  {
    var path := dir + Ascii("/") + file;
    if |path| < SUN_PATH then Some(path)
    else
      match dirfd
      case None => None
      case Some(fd) =>
        var p := Ascii("/proc/self/fd/") + Ascii(Decimal(fd)) + Ascii("/") + file;
        if |p| >= SUN_PATH then None else Some(p)
  }

  lemma {:induction false} DecimalLength(n: nat, digits: nat)
    requires digits > 0 && n < Pow10(digits)
    ensures |Decimal(n)| <= digits
  {
    if n >= 10 {
      DecimalLength(n / 10, digits - 1);
    }
  }

  predicate StartsWith(t: Text, p: Text) { |p| <= |t| && t[..|p|] == p }

  predicate EndsWith(t: Text, p: Text) { |p| <= |t| && t[|t| - |p|..] == p }

  /** The files of a channel have names a file system takes, which start like the name of the channel. */
  lemma FileNameFits(prefix: Text, name: Text)
    requires prefix == Ascii("server_") || prefix == Ascii("client_")
    ensures var file := InfoFileName(prefix, name);
            && |file| <= 255 && EndsWith(file, Ascii(".txt"))
            && StartsWith(file, prefix + name[..Min(200, |name|)])
            && (|name| <= 244 ==> |file| == |prefix| + |name| + 4)
    ensures |UnixSocketFile(name)| <= 76 && StartsWith(UnixSocketFile(name), Ascii("server_") + name[..Min(40, |name|)])
  {
    hide HashText;
  }

  /** The name of a server's socket is short enough: an address is refused only if its directory is
      long and cannot be opened. */
  lemma SocketPathFits(dir: Text, name: Text, dirfd: Option<nat>)
    requires dirfd.Some? ==> dirfd.value < 0x8000_0000
    ensures var path := SocketPath(dir, UnixSocketFile(name), dirfd);
            && (path.None? <==> |dir| + 1 + |UnixSocketFile(name)| >= SUN_PATH && dirfd.None?)
            && (path.Some? ==> |path.value| < SUN_PATH && EndsWith(path.value, Ascii("/") + UnixSocketFile(name)))
            && (|dir| + 1 + |UnixSocketFile(name)| < SUN_PATH ==> StartsWith(path.value, dir))
            && (|dir| + 1 + |UnixSocketFile(name)| >= SUN_PATH && path.Some? ==>
                  path.value == Ascii("/proc/self/fd/" + Decimal(dirfd.value)) + Ascii("/") + UnixSocketFile(name))
  {
    hide HashText, Decimal, UnixSocketFile, InfoFileName;
    FileNameFits(Ascii("server_"), name);
    var file := Ascii("/") + UnixSocketFile(name);
    if dirfd.Some? {
      var fd := Decimal(dirfd.value);
      assert Ascii("/proc/self/fd/" + fd) == Ascii("/proc/self/fd/") + Ascii(fd);
    }
    assert dir + Ascii("/") + UnixSocketFile(name) == dir + file;
    if dirfd.Some? {
      assert Pow10(5) == 100000;
      assert Pow10(10) == 10000000000;
      DecimalLength(dirfd.value, 10);
    }
  }
}
