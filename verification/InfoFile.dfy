/** The info file of a server: its printer (Server::start in socket_server/server.cpp) and its parser
    (Client::getServerIpAndPort in socket_server/client.cpp). */
module InfoFile {
  import opened Wrappers
  import opened Numbers

  /** isspace(): space, and the codes 9 to 13. */
  predicate IsSpace(c: char) { c == ' ' || '\t' <= c <= '\r' }

  predicate NoSpace(s: string) { forall c :: c in s ==> !IsSpace(c) }

  // ---- the printer ----

  /** Everything before the first digit of the port. */
  function Header(ip: string): string { "ip: " + ip + "\nport: " }

  function UnixLine(path: string): string { if path == "" then "" else "unix: " + path + "\n" }

  function Print(ip: string, port: nat, path: string): string
  {
    Header(ip) + Decimal(port) + "\n" + UnixLine(path)
  }

  // ---- the conversions of fscanf ----

  function SkipSpaces(s: string): (t: string)
    ensures |t| <= |s|
  {
    if s != [] && IsSpace(s[0]) then SkipSpaces(s[1..]) else s
  }

  /** The length of the longest run of characters without spaces, at most `max`. */
  function WordLength(s: string, max: nat): (n: nat)
    ensures n <= |s| && n <= max
  {
    if s == [] || max == 0 || IsSpace(s[0]) then 0 else 1 + WordLength(s[1..], max - 1)
  }

  datatype Scan<+T> = Scan(value: T, rest: string)

  /** %<max>s */
  function ScanString(s: string, max: nat): Option<Scan<string>>
  {
    var t := SkipSpaces(s);
    var n := WordLength(t, max);
    if n == 0 then None else Some(Scan(t[..n], t[n..]))
  }

  function DigitsLength(s: string): (n: nat)
    ensures n <= |s|
    ensures forall c :: c in s[..n] ==> IsDigit(c)
  {
    if s == [] || !IsDigit(s[0]) then 0 else 1 + DigitsLength(s[1..])
  }

  function DigitValue(c: char): nat
    requires IsDigit(c)
  {
    c as int - 48
  }

  function NumberOf(s: string): nat
    requires forall c :: c in s ==> IsDigit(c)
  {
    if s == [] then 0
    else
      assert s[|s| - 1] in s;
      10 * NumberOf(s[..|s| - 1]) + DigitValue(s[|s| - 1])
  }

  /** %d */
  function ScanNumber(s: string): Option<Scan<int>>
  {
    var t := SkipSpaces(s);
    var signed := t != [] && (t[0] == '-' || t[0] == '+');
    var u := if signed then t[1..] else t;
    var n := DigitsLength(u);
    if n == 0 then None
    else Some(Scan(if signed && t[0] == '-' then 0 - NumberOf(u[..n]) as int else NumberOf(u[..n]), u[n..]))
  }

  // ---- the parser ----

  datatype Info = Info(ip: string, port: int, unixPath: string)

  /** The optional third line. */
  function ScanUnix(s: string): string
  {
    match ScanString(s, 127)
    case None => ""
    case Some(key) =>
      match ScanString(key.rest, 4095)
      case None => ""
      case Some(path) => if key.value == "unix:" then path.value else ""
  }

  function Parse(file: string): Option<Info>
  {
    match ScanString(file, 127)
    case None => None
    case Some(a) =>
      match ScanString(a.rest, 127)
      case None => None
      case Some(ip) =>
        match ScanString(ip.rest, 127)
        case None => None
        case Some(b) =>
          match ScanNumber(b.rest)
          case None => None
          case Some(port) => Some(Info(ip.value, port.value, ScanUnix(port.rest)))
  }

  lemma {:induction false} WordLengthOf(word: string, rest: string, max: nat)
    requires NoSpace(word) && |word| <= max && (rest == [] || IsSpace(rest[0]))
    ensures WordLength(word + rest, max) == |word|
  {
    if word == [] {
      assert word + rest == rest;
    } else {
      assert word[0] in word;
      assert forall c :: c in word[1..] ==> c in word;
      WordLengthOf(word[1..], rest, max - 1);
      assert (word + rest)[1..] == word[1..] + rest;
    }
  }

  /** A word after at most one space is read whole. */
  lemma ScanWord(space: string, word: string, rest: string, max: nat)
    requires space == "" || space == " " || space == "\n"
    requires word != [] && NoSpace(word) && |word| <= max && (rest == [] || IsSpace(rest[0]))
    ensures ScanString(space + word + rest, max) == Some(Scan(word, rest))
  {
    assert word[0] in word;
    var s := space + word + rest;
    if space != "" {
      assert s[1..] == word + rest && IsSpace(s[0]);
      assert SkipSpaces(s[1..]) == s[1..];
    } else {
      assert s == word + rest;
    }
    WordLengthOf(word, rest, max);
    assert (word + rest)[..|word|] == word && (word + rest)[|word|..] == rest;
  }

  lemma ScanNothing(space: string, max: nat)
    requires space == "" || space == " " || space == "\n"
    ensures ScanString(space, max) == None && ScanNumber(space) == None
  {
    if space != "" {
      assert space[1..] == "";
    }
  }

  lemma {:induction false} DigitsLengthOf(digits: string, rest: string)
    requires (forall c :: c in digits ==> IsDigit(c)) && (rest == [] || !IsDigit(rest[0]))
    ensures DigitsLength(digits + rest) == |digits|
  {
    if digits == [] {
      assert digits + rest == rest;
    } else {
      assert digits[0] in digits;
      assert forall c :: c in digits[1..] ==> c in digits;
      DigitsLengthOf(digits[1..], rest);
      assert (digits + rest)[1..] == digits[1..] + rest;
    }
  }

  lemma {:induction false} NumberOfDecimal(n: nat)
    ensures NumberOf(Decimal(n)) == n
  {
    var s := Decimal(n);
    if n < 10 {
      assert s[..|s| - 1] == [];
    } else {
      NumberOfDecimal(n / 10);
      assert s[..|s| - 1] == Decimal(n / 10);
    }
  }

  lemma ScanDigits(digits: string, rest: string)
    requires digits != "" && (forall c :: c in digits ==> IsDigit(c)) && (rest == [] || !IsDigit(rest[0]))
    ensures ScanNumber(" " + digits + rest) == Some(Scan(NumberOf(digits) as int, rest))
  {
    hide NumberOf;
    var s := " " + digits + rest;
    assert digits[0] in digits;
    assert s[1..] == digits + rest && SkipSpaces(s[1..]) == s[1..];
    DigitsLengthOf(digits, rest);
    assert (digits + rest)[..|digits|] == digits && (digits + rest)[|digits|..] == rest;
  }

  /** The first `j` digits of a number. */
  lemma {:induction false} FirstDigits(n: nat, j: nat)
    requires j <= |Decimal(n)|
    ensures NumberOf(Decimal(n)[..j]) == n / Pow10(|Decimal(n)| - j)
    decreases n
  {
    var s := Decimal(n);
    if j == |s| {
      assert s[..j] == s;
      NumberOfDecimal(n);
    } else if n < 10 {
      assert s[..j] == "" && Pow10(1) == 10;
    } else {
      FirstDigits(n / 10, j);
      assert s[..j] == Decimal(n / 10)[..j];
      DivDiv(n, Pow10(|s| - 1 - j));
    }
  }

  lemma DivDiv(n: nat, p: nat)
    requires p > 0
    ensures n / 10 / p == n / (10 * p)
  {
    var q := n / 10 / p;
    var m := n / 10;
    assert n == 10 * m + n % 10 && m == p * q + m % p;
    assert n == 10 * p * q + (10 * (m % p) + n % 10);
    Quotient(n, 10 * p, q, 10 * (m % p) + n % 10);
  }

  /** The part of the Unix path in the first `n` characters of what follows the port. */
  function PathCut(path: string, n: nat): string
  {
    if n <= 7 then "" else if n - 7 < |path| then path[..n - 7] else path
  }

  lemma ScanUnixCut(path: string, n: nat)
    requires NoSpace(path) && |path| <= 4095 && n <= |"\n" + UnixLine(path)|
    ensures ScanUnix(("\n" + UnixLine(path))[..n]) == PathCut(path, n)
  {
    hide ScanString;
    var s := ("\n" + UnixLine(path))[..n];
    ScanNothing("", 4095);
    ScanNothing(" ", 4095);
    if n == 0 || path == "" {
      assert s == "" || s == "\n";
      ScanNothing(s, 127);
    } else if n <= 6 {
      var cut := "unix:"[..n - 1];
      assert s == "\n" + cut;
      CutWord("unix:", n - 1);
      ScanCut("\n", cut, 127);
    } else {
      ScanUnixPath(path, n);
    }
  }

  lemma ScanUnixPath(path: string, n: nat)
    requires NoSpace(path) && 0 < |path| <= 4095 && 7 <= n <= |"\n" + UnixLine(path)|
    ensures ScanUnix(("\n" + UnixLine(path))[..n]) == PathCut(path, n)
  {
    hide ScanString, ScanUnix;
    var s := ("\n" + UnixLine(path))[..n];
    assert "\n" + UnixLine(path) == "\n" + "unix:" + (" " + path + "\n");
    if n <= 7 + |path| {
      assert s == "\n" + "unix:" + (" " + path[..n - 7]);
      CutWord(path, n - 7);
      ScanUnixWord(path[..n - 7], "");
      assert " " + path[..n - 7] + "" == " " + path[..n - 7];
    } else {
      assert s == "\n" + "unix:" + (" " + path + "\n");
      ScanUnixWord(path, "\n");
    }
  }

  lemma ScanUnixWord(path: string, rest: string)
    requires NoSpace(path) && |path| <= 4095 && (rest == "" || (rest == "\n" && path != ""))
    ensures ScanUnix("\n" + "unix:" + (" " + path + rest)) == path
  {
    hide ScanString;
    ScanWord("\n", "unix:", " " + path + rest, 127);
    if path == "" {
      assert " " + path + rest == " ";
      ScanNothing(" ", 4095);
    } else {
      ScanWord(" ", path, rest, 4095);
    }
  }

  /** A file with at least one digit of the port. */
  lemma ParseDigits(ip: string, digits: string, rest: string)
    requires ip != "" && NoSpace(ip) && |ip| <= 127
    requires digits != "" && (forall c :: c in digits ==> IsDigit(c)) && (rest == [] || rest[0] == '\n')
    ensures Parse(Header(ip) + digits + rest) == Some(Info(ip, NumberOf(digits), ScanUnix(rest)))
  {
    hide ScanString, ScanNumber, ScanUnix, NumberOf;
    var s2 := " " + digits + rest;
    var s1 := "\n" + "port:" + s2;
    var s0 := " " + ip + s1;
    assert Header(ip) + digits + rest == "" + "ip:" + s0;
    ScanWord("", "ip:", s0, 127);
    ScanWord(" ", ip, s1, 127);
    ScanWord("\n", "port:", s2, 127);
    ScanDigits(digits, rest);
  }

  /** A word cut short, or nothing: the first conversion takes it, and leaves nothing. */
  lemma ScanCut(space: string, word: string, max: nat)
    requires space == "" || space == " " || space == "\n"
    requires NoSpace(word) && |word| <= max
    ensures ScanString(space + word, max) == if word == "" then None else Some(Scan(word, ""))
  {
    if word == "" {
      assert space + word == space;
      ScanNothing(space, max);
    } else {
      assert space + word == space + word + "";
      ScanWord(space, word, "", max);
    }
  }

  lemma CutWord(word: string, n: nat)
    requires NoSpace(word) && n <= |word|
    ensures NoSpace(word[..n])
  {
  }

  lemma CutInIp(cut: string)
    requires NoSpace(cut) && |cut| <= 127
    ensures Parse("ip:" + (" " + cut)) == None
  {
    hide ScanString, ScanNumber, ScanUnix;
    ScanNothing("", 127);
    assert "" + "ip:" + (" " + cut) == "ip:" + (" " + cut);
    ScanWord("", "ip:", " " + cut, 127);
    ScanCut(" ", cut, 127);
  }

  lemma CutInPort(ip: string, rest: string)
    requires ip != "" && NoSpace(ip) && |ip| <= 127
    requires ScanString("\n" + rest, 127).None? || ScanNumber(ScanString("\n" + rest, 127).value.rest).None?
    ensures Parse("ip:" + (" " + ip + ("\n" + rest))) == None
  {
    hide ScanString, ScanNumber, ScanUnix;
    var s := " " + ip + ("\n" + rest);
    assert "" + "ip:" + s == "ip:" + s;
    ScanWord("", "ip:", s, 127);
    ScanWord(" ", ip, "\n" + rest, 127);
  }

  /** A file that stops before the first digit of the port is refused. */
  lemma ParseCutShort(ip: string, port: nat, path: string, n: nat)
    requires ip != "" && NoSpace(ip) && |ip| <= 127 && n <= |Header(ip)|
    ensures Parse(Print(ip, port, path)[..n]) == None
  {
    hide ScanString, ScanNumber, ScanUnix, Parse, Decimal, UnixLine;
    assert Print(ip, port, path)[..n] == Header(ip)[..n];
    if n <= 3 {
      assert Header(ip)[..n] == "ip:"[..n];
      CutWord("ip:", n);
      CutInKey("ip:"[..n]);
    } else if n <= 4 + |ip| {
      assert Header(ip)[..n] == "ip:" + (" " + ip[..n - 4]);
      CutWord(ip, n - 4);
      CutInIp(ip[..n - 4]);
    } else if n <= 10 + |ip| {
      var cut := "port:"[..n - 5 - |ip|];
      assert Header(ip)[..n] == "ip:" + (" " + ip + ("\n" + cut));
      CutWord("port:", n - 5 - |ip|);
      ScanCut("\n", cut, 127);
      ScanNothing("", 127);
      CutInPort(ip, cut);
    } else {
      assert Header(ip)[..n] == "ip:" + (" " + ip + ("\n" + "port: "));
      assert "\n" + "port:" + " " == "\n" + "port: ";
      ScanWord("\n", "port:", " ", 127);
      ScanNothing(" ", 127);
      CutInPort(ip, "port: ");
    }
  }

  lemma CutInKey(cut: string)
    requires NoSpace(cut) && |cut| <= 127
    ensures Parse(cut) == None
  {
    hide ScanString, ScanNumber, ScanUnix;
    assert "" + cut == cut;
    ScanCut("", cut, 127);
    ScanNothing("", 127);
  }

  /** What the parser makes of the first `n` characters of a file that is being written: nothing before the
      first digit of the port, then the port as far as it is there, then the Unix path as far as it is there. */
  function Expected(ip: string, port: nat, path: string, n: nat): Option<Info>
  {
    var header, all := |Header(ip)|, |Header(ip)| + |Decimal(port)|;
    if n <= header then None
    else if n <= all then Some(Info(ip, port / Pow10(all - n), ""))
    else Some(Info(ip, port, PathCut(path, n - all)))
  }

  lemma ParseCut(ip: string, port: nat, path: string, n: nat)
    requires ip != "" && NoSpace(ip) && |ip| <= 127 && NoSpace(path) && |path| <= 4095
    requires n <= |Print(ip, port, path)|
    ensures Parse(Print(ip, port, path)[..n]) == Expected(ip, port, path, n)
  {
    hide Parse, Decimal, UnixLine, ScanUnix, Header, NumberOf, Pow10;
    var h, d, t := Header(ip), Decimal(port), "\n" + UnixLine(path);
    var s := Print(ip, port, path)[..n];
    assert Print(ip, port, path) == h + d + t;
    if n <= |h| {
      ParseCutShort(ip, port, path, n);
    } else if n <= |h| + |d| {
      var j := n - |h|;
      assert s == h + d[..j] + "";
      assert forall c :: c in d[..j] ==> c in d;
      ParseDigits(ip, d[..j], "");
      FirstDigits(port, j);
      ScanUnixCut("", 0);
      assert ("\n" + UnixLine(""))[..0] == "";
    } else {
      var m := n - |h| - |d|;
      assert s == h + d + t[..m] && t[..m][0] == '\n';
      ParseDigits(ip, d, t[..m]);
      NumberOfDecimal(port);
      ScanUnixCut(path, m);
    }
  }

  /** Parsing what was printed gives back the ip, the port and the Unix path (empty if there is none),
      whenever they fit the fields of the parser. */
  lemma ParsePrint(ip: string, port: nat, path: string)
    requires ip != "" && NoSpace(ip) && |ip| <= 127 && NoSpace(path) && |path| <= 4095
    ensures Parse(Print(ip, port, path)) == Some(Info(ip, port, path))
  {
    hide Parse, Decimal;
    var s := Print(ip, port, path);
    assert s[..|s|] == s;
    ParseCut(ip, port, path, |s|);
  }

  /** A third line that is not that of a Unix socket is ignored. */
  lemma OtherLineIgnored(ip: string, port: nat, key: string, rest: string)
    requires ip != "" && NoSpace(ip) && |ip| <= 127
    requires key != "" && key != "unix:" && NoSpace(key) && |key| <= 127 && (rest == "" || IsSpace(rest[0]))
    ensures Parse(Header(ip) + Decimal(port) + ("\n" + key + rest)) == Some(Info(ip, port, ""))
  {
    hide Parse, Decimal, NumberOf, ScanString, Header;
    ParseDigits(ip, Decimal(port), "\n" + key + rest);
    NumberOfDecimal(port);
    ScanWord("\n", key, rest, 127);
  }

  /** A text up to its first space. */
  function FirstWord(s: string): (w: string)
    ensures w <= s && NoSpace(w)
  {
    if s == "" || IsSpace(s[0]) then "" else [s[0]] + FirstWord(s[1..])
  }

  lemma {:induction false} FirstWordIsAll(s: string)
    ensures FirstWord(s) == s <==> NoSpace(s)
  {
    if s != "" {
      FirstWordIsAll(s[1..]);
      assert s == [s[0]] + s[1..];
      assert forall c :: c in s <==> c == s[0] || c in s[1..];
    }
  }

  lemma {:induction false} WordLengthIs(s: string, rest: string, max: nat)
    requires rest != "" && IsSpace(rest[0])
    ensures WordLength(s + rest, max) == if |FirstWord(s)| <= max then |FirstWord(s)| else max
    decreases |s|
  {
    if s == "" {
      assert s + rest == rest;
    } else if max > 0 && !IsSpace(s[0]) {
      WordLengthIs(s[1..], rest, max - 1);
      assert (s + rest)[1..] == s[1..] + rest;
    }
  }

  /** A path may hold spaces, and be longer than the field: what comes back is its part before the first space, at
      most 4095 characters of it. */
  function PathRead(path: string): string
  {
    var w := FirstWord(path);
    if |w| <= 4095 then w else w[..4095]
  }

  lemma ScanPath(path: string)
    requires path != "" && !IsSpace(path[0])
    ensures ScanString(" " + path + "\n", 4095).Some? && ScanString(" " + path + "\n", 4095).value.value == PathRead(path)
  {
    var s, t := " " + path + "\n", path + "\n";
    assert s[1..] == t && IsSpace(s[0]) && SkipSpaces(t) == t;
    WordLengthIs(path, "\n", 4095);
    assert FirstWord(path) != "";
  }

  lemma ParsePrintAnyPath(ip: string, port: nat, path: string)
    requires ip != "" && NoSpace(ip) && |ip| <= 127 && (path != "" ==> !IsSpace(path[0]))
    ensures Parse(Print(ip, port, path)) == Some(Info(ip, port, PathRead(path)))
    ensures PathRead(path) == path <==> NoSpace(path) && |path| <= 4095
  {
    hide Parse, Decimal, NumberOf, ScanString, Header;
    FirstWordIsAll(path);
    if path == "" {
      ParsePrint(ip, port, path);
    } else {
      var tail := "\n" + UnixLine(path);
      assert Print(ip, port, path) == Header(ip) + Decimal(port) + tail;
      ParseDigits(ip, Decimal(port), tail);
      NumberOfDecimal(port);
      assert tail == "\n" + "unix:" + (" " + path + "\n");
      ScanWord("\n", "unix:", " " + path + "\n", 127);
      ScanPath(path);
    }
  }

  /** A file cut inside the digits of the port is always accepted, with another port. */
  lemma CutPortIsWrong(ip: string, port: nat, path: string, n: nat)
    requires ip != "" && NoSpace(ip) && |ip| <= 127 && NoSpace(path) && |path| <= 4095
    requires |Header(ip)| < n < |Header(ip)| + |Decimal(port)|
    ensures n <= |Print(ip, port, path)|
    ensures var r := Parse(Print(ip, port, path)[..n]); r.Some? && r.value.ip == ip && r.value.port < port
  {
    hide Parse, Header;
    assert port > 0;
    var k := |Header(ip)| + |Decimal(port)| - n;
    ParseCut(ip, port, path, n);
    DivDiv(port, Pow10(k - 1));
    hide Pow10;
    SmallerQuotient(port / 10, Pow10(k - 1));
  }

  lemma SmallerQuotient(n: nat, p: nat)
    requires p > 0
    ensures n / p <= n
  {
    DivisionOf(n, p, n / p, n % p);
  }

  lemma DivisionOf(n: nat, p: nat, q: nat, r: nat)
    requires p > 0 && n == p * q + r
    ensures q <= n
  {
    assert (p - 1) * q >= 0;
  }

  /** The address fields of a client. */
  class ClientAddress {
    var serverIp: string
    var serverPort: int
    var serverUnixSocket: string

    constructor ()
      ensures serverIp == "" && serverPort == 0 && serverUnixSocket == ""
    {
      serverIp, serverPort, serverUnixSocket := "", 0, "";
    }

    /** `file` is `None` if it cannot be opened. A file that is refused leaves the address alone. */
    method GetServerIpAndPort(file: Option<string>) returns (ok: bool)
      modifies this
      ensures ok == (file.Some? && Parse(file.value).Some?)
      ensures ok ==> Info(serverIp, serverPort, serverUnixSocket) == Parse(file.value).value
      ensures !ok ==> serverIp == old(serverIp) && serverPort == old(serverPort)
                      && serverUnixSocket == old(serverUnixSocket)
    {
      if file.None? {
        return false;
      }
      var garbage := ScanString(file.value, 127);
      if garbage.None? {
        return false;
      }
      var ipStr := ScanString(garbage.value.rest, 127);
      if ipStr.None? {
        return false;
      }
      garbage := ScanString(ipStr.value.rest, 127);
      if garbage.None? {
        return false;
      }
      var port := ScanNumber(garbage.value.rest);
      if port.None? {
        return false;
      }
      serverIp, serverPort, serverUnixSocket := ipStr.value.value, port.value.value, "";
      garbage := ScanString(port.value.rest, 127);
      if garbage.Some? {
        var unixPath := ScanString(garbage.value.rest, 4095);
        if unixPath.Some? && garbage.value.value == "unix:" {
          serverUnixSocket := unixPath.value.value;
        }
      }
      return true;
    }
  }
}
