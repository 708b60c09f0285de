/** Packed server names and the table of servers that remembers them (zebu_server_name and
    zebu_server_start in src/core/multisim_server.cpp). Names are byte strings. */
module ZebuNames {
  import opened Wrappers
  import opened Messages
  import opened Numbers
  import opened Encoding

  const NAME_LEN: nat := 512
  const NAME_WORDS: nat := 129   // ZEBU_NAME_WORDS
  const SERVER_MAX: nat := 1024

  type Name = seq<byte>

  type Packed = p: seq<uint32> | |p| == 129 witness seq(129, i => 0)

  /** Byte `i` of a packed name, from the right. */
  function Char(p: Packed, i: nat): byte
    requires i < 4 * NAME_WORDS
  {
    WordBytes(p[i / 4])[i % 4]
  }

  /** The characters at positions n - 1 down to 0 that are not NUL. */
  function Decode(p: Packed, n: nat): (name: Name)
    requires n <= 4 * NAME_WORDS
    ensures |name| <= n && 0 !in name
  {
    if n == 0 then []
    else (if Char(p, n - 1) != 0 then [Char(p, n - 1)] else []) + Decode(p, n - 1)
  }

  /** The bytes of the port: one more than a name may have. */
  function PortLen(p: Packed): nat { 4 * |p| - 3 }

  /** zebu_server_name: `None` is the exit on a name that is too long. */
  function ServerName(p: Packed): (r: Option<Name>)
    ensures r.Some? ==> |r.value| <= NAME_LEN
  {
    var name := Decode(p, PortLen(p));
    if |name| > NAME_LEN then None else Some(name)
  }

  /** The loop of zebu_server_name. */
  method ZebuServerName(p: Packed) returns (r: Option<Name>)
    ensures r == ServerName(p)
  {
    hide Char;
    var name: Name := [];
    var i := PortLen(p);
    while i > 0
      invariant 0 <= i <= PortLen(p)
      invariant name + Decode(p, i) == Decode(p, PortLen(p))
    {
      i := i - 1;
      var c := Char(p, i);
      if c != 0 {
        assert name + ([c] + Decode(p, i)) == (name + [c]) + Decode(p, i);
        name := name + [c];
      }
    }
    assert name == Decode(p, PortLen(p));
    if |name| > NAME_LEN {
      return None;
    }
    return Some(name);
  }

  // ---- packing ----

  /** The port: the string literal right-justified in 513 bytes, which keep the last characters of a
      longer one, and three bytes beyond the port. */
  function PortByte(name: Name, beyond: seq<byte>, i: nat): byte
    requires i < 4 * NAME_WORDS && |beyond| == 3
  {
    if i > NAME_LEN then beyond[i - NAME_LEN - 1]
    else if i < |name| then name[|name| - 1 - i]
    else 0
  }

  function Pack(name: Name, beyond: seq<byte>): Packed
    requires |beyond| == 3
  {
    seq(129, w requires 0 <= w < 129 => BytesWord(seq(4, k requires 0 <= k < 4 => PortByte(name, beyond, 4 * w + k))))
  }

  lemma WordOfBytes(m: Msg)
    requires |m| == 4
    ensures WordBytes(BytesWord(m)) == m
  {
    var w, a, b, c, d: nat := BytesWord(m), m[0] as nat, m[1] as nat, m[2] as nat, m[3] as nat;
    assert w == a + 256 * (b + 256 * (c + 256 * d));
    assert w % 256 == a && w / 256 == b + 256 * (c + 256 * d);
    assert w / 256 % 256 == b && w / 256 / 256 == c + 256 * d;
    assert w / 256 / 256 == w / 0x1_0000;
    assert w / 0x1_0000 % 256 == c && w / 0x1_0000 / 256 == d;
    assert w / 0x1_0000 / 256 == w / 0x100_0000;
  }

  lemma PackChar(name: Name, beyond: seq<byte>, i: nat)
    requires i < 4 * NAME_WORDS && |beyond| == 3
    ensures Char(Pack(name, beyond), i) == PortByte(name, beyond, i)
  {
    WordOfBytes(seq(4, k requires 0 <= k < 4 => PortByte(name, beyond, 4 * (i / 4) + k)));
    assert 4 * (i / 4) + i % 4 == i;
  }

  /** The bytes of the port are the name from the right, then zeroes. */
  ghost predicate Holds(p: Packed, name: Name)
  {
    forall i :: 0 <= i <= NAME_LEN ==> Char(p, i) == if i < |name| then name[|name| - 1 - i] else 0
  }

  lemma {:induction false} DecodeHeld(p: Packed, name: Name, n: nat)
    requires n <= NAME_LEN + 1 && Holds(p, name) && 0 !in name
    ensures Decode(p, n) == if n <= |name| then name[|name| - n..] else name
  {
    hide Char, Decode;
    DecodeStep(p, n);
    if n == 0 {
      assert name[|name|..] == [];
    } else {
      DecodeHeld(p, name, n - 1);
      var c := Char(p, n - 1);
      if n <= |name| {
        assert c == name[|name| - n];
        assert c in name;
        assert name[|name| - n..] == [c] + name[|name| - (n - 1)..];
      } else {
        assert c == 0;
        assert n - 1 == |name| ==> name[|name| - (n - 1)..] == name;
      }
    }
  }

  lemma DecodeStep(p: Packed, n: nat)
    requires n <= 4 * NAME_WORDS
    ensures Decode(p, n) ==
            if n == 0 then [] else if Char(p, n - 1) == 0 then Decode(p, n - 1) else [Char(p, n - 1)] + Decode(p, n - 1)
  {
    hide Char;
    assert n > 0 ==> [] + Decode(p, n - 1) == Decode(p, n - 1);
  }

  /** A NUL-free name of at most 512 characters comes back, a longer one is always refused, whatever
      the bytes beyond the port hold. */
  lemma PackedNameRoundTrip(name: Name, beyond: seq<byte>)
    requires |beyond| == 3 && 0 !in name
    ensures ServerName(Pack(name, beyond)) == if |name| <= NAME_LEN then Some(name) else None
  {
    hide Decode, Pack, Char;
    var p := Pack(name, beyond);
    forall i | 0 <= i <= NAME_LEN
      ensures Char(p, i) == if i < |name| then name[|name| - 1 - i] else 0
    {
      PackChar(name, beyond, i);
    }
    DecodeHeld(p, name, PortLen(p));
  }

  // ---- the table ----

  datatype Entry = Entry(packed: Packed, name: Name, idx: nat)

  /** zebu_servers, server_name_to_idx and server_idx; `started` is Server::serverNameSet. */
  datatype Table = Table(servers: seq<Entry>, nameToIdx: map<Name, nat>, serverIdx: nat, started: set<Name>)

  /** The index of the server, or why the process stops: exit on a name that is too long, exit on a
      duplicate name, assertion on the number of servers. */
  datatype Start = Index(idx: nat) | NameTooLong | Duplicate | TooManyServers

  function Find(servers: seq<Entry>, p: Packed): (r: Option<nat>)
    ensures r.Some? ==> exists e :: e in servers && e.packed == p && e.idx == r.value
    ensures r.None? ==> forall e :: e in servers ==> e.packed != p
  {
    if servers == [] then None
    else if servers[0].packed == p then Some(servers[0].idx)
    else Find(servers[1..], p)
  }

  /** multisim_server_start with its check of the name, and the constructor of Server. */
  function StartServer(t: Table, name: Name): (Start, Table)
  {
    if t.serverIdx >= SERVER_MAX then (TooManyServers, t)
    else if |name| > NAME_LEN then (NameTooLong, t)
    else if name in t.started then (Duplicate, t)
    else (Index(t.serverIdx),
          t.(nameToIdx := t.nameToIdx[name := t.serverIdx], serverIdx := t.serverIdx + 1, started := t.started + {name}))
  }

  /** zebu_server_start */
  function ZebuStart(t: Table, p: Packed): (Start, Table)
  {
    match Find(t.servers, p)
    case Some(idx) => (Index(idx), t)
    case None =>
      match ServerName(p)
      case None => (NameTooLong, t)
      case Some(name) =>
        var (r, u) := if name in t.nameToIdx then (Index(0), t) else StartServer(t, name);
        if r.Index? && name in u.nameToIdx then
          (Index(u.nameToIdx[name]), u.(servers := u.servers + [Entry(p, name, u.nameToIdx[name])]))
        else (r, u)
  }

  /** The table remembers decoded names only, and one server was started per name. */
  ghost predicate Inv(t: Table)
  {
    && t.started == t.nameToIdx.Keys
    && |t.nameToIdx| == t.serverIdx <= SERVER_MAX
    && (forall n :: n in t.nameToIdx ==> t.nameToIdx[n] < t.serverIdx)
    && (forall m, n :: m in t.nameToIdx && n in t.nameToIdx && t.nameToIdx[m] == t.nameToIdx[n] ==> m == n)
    && (forall e :: e in t.servers ==>
          ServerName(e.packed) == Some(e.name) && e.name in t.nameToIdx && t.nameToIdx[e.name] == e.idx)
  }

  /** One call: the index is that of the decoded name, names already known keep theirs, a new name
      starts one server, and the duplicate-name exit is not reached. */
  lemma ZebuStartStep(t: Table, p: Packed)
    requires Inv(t)
    ensures var ru := ZebuStart(t, p);
            && Inv(ru.1) && ru.1.serverIdx >= t.serverIdx
            && (forall n :: n in t.nameToIdx ==> n in ru.1.nameToIdx && ru.1.nameToIdx[n] == t.nameToIdx[n])
            && (match ServerName(p)
                case None => ru == (NameTooLong, t)
                case Some(name) =>
                  if name in t.nameToIdx then ru.0 == Index(t.nameToIdx[name]) && ru.1.nameToIdx == t.nameToIdx
                  else if t.serverIdx == SERVER_MAX then ru == (TooManyServers, t)
                  else ru.0 == Index(t.serverIdx) && ru.1.nameToIdx == t.nameToIdx[name := t.serverIdx])
  {
    hide ServerName, Inv, Find;
    InvFacts(t, p);
    if Find(t.servers, p).None? && ServerName(p).Some? {
      var name := ServerName(p).value;
      if name in t.nameToIdx {
        Remember(t, p, name);
      } else if t.serverIdx < SERVER_MAX {
        var u := StartServer(t, name).1;
        StartKeeps(t, name);
        Remember(u, p, name);
      }
    }
  }

  /** What the table says about a packed name, and that known names are counted. */
  lemma InvFacts(t: Table, p: Packed)
    requires Inv(t)
    ensures t.serverIdx <= SERVER_MAX && t.started == t.nameToIdx.Keys
    ensures Find(t.servers, p).Some? ==>
              ServerName(p).Some? && ServerName(p).value in t.nameToIdx
              && t.nameToIdx[ServerName(p).value] == Find(t.servers, p).value
  {
    hide ServerName;
  }

  lemma Remember(t: Table, p: Packed, name: Name)
    requires Inv(t) && ServerName(p) == Some(name) && name in t.nameToIdx
    ensures Inv(t.(servers := t.servers + [Entry(p, name, t.nameToIdx[name])]))
  {
    hide ServerName;
  }

  lemma StartKeeps(t: Table, name: Name)
    requires Inv(t) && name !in t.nameToIdx && t.serverIdx < SERVER_MAX && |name| <= NAME_LEN
    ensures Inv(StartServer(t, name).1)
    ensures StartServer(t, name).1.nameToIdx == t.nameToIdx[name := t.serverIdx]
    ensures StartServer(t, name).0 == Index(t.serverIdx) && StartServer(t, name).1.serverIdx == t.serverIdx + 1
  {
    hide ServerName;
    var u := StartServer(t, name).1;
    assert u.nameToIdx.Keys == t.nameToIdx.Keys + {name};
    assert |u.nameToIdx| == |u.nameToIdx.Keys| && |t.nameToIdx| == |t.nameToIdx.Keys|;
  }

  function Calls(t: Table, ps: seq<Packed>): (t': Table)
  {
    if ps == [] then t else ZebuStart(Calls(t, ps[..|ps| - 1]), ps[|ps| - 1]).1
  }

  function Empty(): Table { Table([], map[], 0, {}) }

  /** The distinct names that the calls give and that fit. */
  function Names(ps: seq<Packed>): set<Name>
  {
    set p | p in ps && ServerName(p).Some? :: ServerName(p).value
  }

  /** Over every sequence of calls: the same name always gets the same index, different names different
      ones, one server is started per distinct name (up to the maximum), and a further call on `p`
      returns the index of the decoded name. */
  lemma {:induction false} TableAgreesWithDecoding(ps: seq<Packed>, p: Packed)
    ensures var t := Calls(Empty(), ps);
            var r := ZebuStart(t, p).0;
            && Inv(t)
            && t.nameToIdx.Keys <= Names(ps)
            && (t.serverIdx < SERVER_MAX ==> t.nameToIdx.Keys == Names(ps))
            && !r.Duplicate?
            && (ServerName(p).None? ==> r == NameTooLong)
            && (ServerName(p).Some? && ServerName(p).value in t.nameToIdx ==>
                  r == Index(t.nameToIdx[ServerName(p).value]))
  {
    hide ServerName, Find, ZebuStart, Names, Inv;
    if ps == [] {
      EmptyTable();
    } else {
      var front, last := ps[..|ps| - 1], ps[|ps| - 1];
      TableAgreesWithDecoding(front, last);
      ZebuStartStep(Calls(Empty(), front), last);
      NamesSnoc(front, last);
      assert ps == front + [last];
    }
    ZebuStartStep(Calls(Empty(), ps), p);
  }

  lemma EmptyTable()
    ensures Inv(Empty()) && Names([]) == {}
  {
  }

  lemma NamesSnoc(ps: seq<Packed>, p: Packed)
    ensures Names(ps + [p]) == Names(ps) + (if ServerName(p).Some? then {ServerName(p).value} else {})
  {
    hide ServerName;
  }

  // ---- the table as the static variables of the file ----

  class ZebuTable {
    var zebuServers: seq<Entry>
    var serverNameToIdx: map<Name, nat>
    var serverIdx: nat
    var serverNameSet: set<Name>

    ghost function View(): Table reads this { Table(zebuServers, serverNameToIdx, serverIdx, serverNameSet) }

    constructor ()
      ensures View() == Empty()
    {
      zebuServers, serverNameToIdx, serverIdx, serverNameSet := [], map[], 0, {};
    }

    method MultisimServerStart(name: Name) returns (r: Start)
      modifies this
      ensures (r, View()) == StartServer(old(View()), name)
    {
      if serverIdx >= SERVER_MAX {
        return TooManyServers;
      }
      if |name| > NAME_LEN {
        return NameTooLong;
      }
      if name in serverNameSet {
        return Duplicate;
      }
      serverNameSet := serverNameSet + {name};
      serverNameToIdx := serverNameToIdx[name := serverIdx];
      r := Index(serverIdx);
      serverIdx := serverIdx + 1;
    }

    method ZebuServerStart(p: Packed) returns (r: Start)
      modifies this
      ensures (r, View()) == ZebuStart(old(View()), p)
    {
      var i := 0;
      while i < |zebuServers|
        invariant 0 <= i <= |zebuServers| && View() == old(View())
        invariant Find(zebuServers, p) == Find(zebuServers[i..], p)
      {
        if zebuServers[i].packed == p {
          return Index(zebuServers[i].idx);
        }
        i := i + 1;
      }
      var name := ZebuServerName(p);
      if name.None? {
        return NameTooLong;
      }
      r := Index(0);
      if name.value !in serverNameToIdx {
        r := MultisimServerStart(name.value);
      }
      if r.Index? && name.value in serverNameToIdx {
        r := Index(serverNameToIdx[name.value]);
        zebuServers := zebuServers + [Entry(p, name.value, r.idx)];
      }
    }
  }
}
