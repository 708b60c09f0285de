/** The host side of a channel: multisim_server_push_core and multisim_server_pull_core over
    successive clients (src/core/multisim_server.cpp), the accept of socket_server/server.cpp, and
    the single-connection client cores (src/core/multisim_client.cpp). A message is the byte image
    of a word. */
module Host {
  import opened Wrappers
  import opened Messages
  import opened SocketIo

  /** A client that connected: what the kernel will answer on it, and the bytes it sends. */
  datatype Peer = Peer(answers: seq<Answer>, incoming: seq<byte>)

  /** An accepted connection. */
  datatype Conn = Conn(peer: Peer, at: nat, taken: nat, sent: seq<byte>)

  /** The server of one channel: clients waiting on the Unix and the TCP socket, the accepted
      connection, and the connections closed so far, oldest first. */
  datatype Service = Service(hasUnix: bool, unix: seq<Peer>, tcp: seq<Peer>, conn: Option<Conn>, closed: seq<Conn>)

  /** Whether poll(), accept() on the Unix socket and accept() on the TCP socket work this time. */
  datatype Luck = Luck(poll: bool, unix: bool, tcp: bool)

  function Opened(p: Peer): Conn { Conn(p, 0, 0, []) }

  function AcceptNew(s: Service, k: Luck): (t: Service)
    requires s.conn.None?
  {
    if !k.poll then s
    else if s.hasUnix && s.unix != [] && k.unix then
      s.(unix := s.unix[1..], conn := Some(Opened(s.unix[0])))
    else if s.tcp != [] && k.tcp then
      s.(tcp := s.tcp[1..], conn := Some(Opened(s.tcp[0])))
    else s
  }

  /** Who is accepted: the client that has waited longest on the Unix socket, or, if there is none there or its
      accept() fails, the one that has waited longest on the TCP socket; nobody else leaves the queues. */
  lemma OldestIsAccepted(s: Service, k: Luck)
    requires s.conn.None?
    ensures var t := AcceptNew(s, k);
            && (t.conn.None? ==> t == s)
            && (t.conn.Some? <==> k.poll && ((s.hasUnix && s.unix != [] && k.unix) || (s.tcp != [] && k.tcp)))
            && (t.conn.Some? ==>
                  var p := t.conn.value.peer;
                  && t.conn.value == Opened(p)
                  && (if s.hasUnix && s.unix != [] && k.unix then s.unix == [p] + t.unix && t.tcp == s.tcp
                      else s.tcp == [p] + t.tcp && t.unix == s.unix))
  {
  }

  /** The service a pull or push works on: the open connection, or a new one. */
  function Connected(s: Service, k: Luck): (t: Service)
    ensures s.conn.Some? ==> t == s
    ensures t.closed == s.closed
  {
    if s.conn.Some? then s else AcceptNew(s, k)
  }

  function SendOn(c: Conn, msg: Msg): (x: Xfer) { Transfer(0, |msg|, |msg|, c.peer.answers, c.at) }

  function ReadOn(c: Conn, size: nat): (x: Xfer)
    requires c.taken <= |c.peer.incoming|
  {
    Transfer(0, size, |c.peer.incoming| - c.taken, c.peer.answers, c.at)
  }

  function Close(s: Service, c: Conn): Service { s.(conn := None, closed := s.closed + [c]) }

  /** The push and the pull of a message on an open connection. */
  function PushOn(s: Service, msg: Msg): (r: (Service, bool))
    requires s.conn.Some?
  {
    var x := SendOn(s.conn.value, msg);
    var c := s.conn.value.(at := x.at, sent := s.conn.value.sent + msg[..x.moved]);
    if x.outcome.Whole? && msg != [] then (s.(conn := Some(c)), true)
    else if x.outcome == Failed(EAGAIN) then (s.(conn := Some(c)), false)
    else (Close(s, c), false)
  }

  function PullOn(s: Service, size: nat): (r: (Service, Option<Msg>))
    requires s.conn.Some? && ConnOk(s)
    ensures ConnOk(r.0) && (r.1.Some? ==> |r.1.value| == size)
  {
    var x := ReadOn(s.conn.value, size);
    var c := s.conn.value.(at := x.at, taken := s.conn.value.taken + x.moved);
    if x.outcome.Whole? && size > 0 then
      (s.(conn := Some(c)), Some(c.peer.incoming[s.conn.value.taken..c.taken]))
    else if x.outcome.Failed? then (s.(conn := Some(c)), None)
    else (Close(s, c), None)
  }

  /** multisim_server_push_core: the new service, and whether the message was sent. */
  function Push(s: Service, msg: Msg, k: Luck): (r: (Service, bool))
  {
    var t := Connected(s, k);
    if t.conn.None? then (t, false) else PushOn(t, msg)
  }

  /** multisim_server_pull_core: the new service, and the message that was read, if any. */
  function Pull(s: Service, size: nat, k: Luck): (r: (Service, Option<Msg>))
    requires ConnOk(s)
    ensures ConnOk(r.0) && (r.1.Some? ==> |r.1.value| == size)
  {
    var t := Connected(s, k);
    if t.conn.None? then (t, None) else PullOn(t, size)
  }

  predicate ConnOk(s: Service)
  {
    s.conn.Some? ==> s.conn.value.taken <= |s.conn.value.peer.incoming|
  }

  /** `server[idx]` and `sockets[idx]`. */
  class ServerChannel {
    const hasUnix: bool
    var unix: seq<Peer>
    var tcp: seq<Peer>
    var sock: Socket?
    ghost var closed: seq<Conn>

    ghost predicate Valid() reads this, sock { sock != null ==> sock.Valid() }

    ghost function View(): Service
      reads this, sock
    {
      Service(hasUnix, unix, tcp, if sock == null then None else Some(ConnOf(sock)), closed)
    }

    ghost function ConnOf(s: Socket): Conn reads s { Conn(Peer(s.answers, s.incoming), s.at, s.taken, s.sent) }

    constructor (hasUnix: bool)
      ensures Valid() && View() == Service(hasUnix, [], [], None, [])
    {
      this.hasUnix := hasUnix;
      unix, tcp, sock, closed := [], [], null, [];
    }

    /** Server::acceptNewSocket */
    method AcceptNewSocket(k: Luck) returns (s: Socket?)
      requires sock == null
      modifies this`unix, this`tcp
      ensures s != null ==> fresh(s) && s.Valid()
      ensures var t := AcceptNew(old(View()), k);
              && unix == t.unix && tcp == t.tcp
              && (s == null <==> t.conn.None?)
              && (s != null ==> ConnOf(s) == t.conn.value)
    {
      s := null;
      if !k.poll || ((!hasUnix || unix == []) && tcp == []) {
        return null;
      }
      if hasUnix && unix != [] && k.unix {
        s := new Socket(unix[0].answers, unix[0].incoming);
        unix := unix[1..];
      }
      if s == null && tcp != [] && k.tcp {
        s := new Socket(tcp[0].answers, tcp[0].incoming);
        tcp := tcp[1..];
      }
    }

    /** What both cores start with: accept a client if there is none. */
    method Connect(k: Luck) returns (open: bool)
      requires Valid()
      modifies this
      ensures Valid() && (sock == old(sock) || fresh(sock))
      ensures View() == Connected(old(View()), k) && open == (sock != null)
    {
      if sock == null {
        sock := AcceptNewSocket(k);
      }
      return sock != null;
    }

    method PushCore(msg: Msg, k: Luck) returns (ok: bool)
      requires Valid()
      modifies this, sock
      ensures Valid() && (sock == old(sock) || sock == null || fresh(sock))
      ensures (View(), ok) == Push(old(View()), msg, k)
    {
      var open := Connect(k);
      if !open {
        return false;
      }
      var r, errno := SendMsg(sock, msg);
      if r <= 0 {
        if r == 0 || errno != EAGAIN {
          closed := closed + [ConnOf(sock)];
          sock := null;
        }
        return false;
      }
      return true;
    }

    method PullCore(buf: array<byte>, k: Luck) returns (ok: bool)
      requires Valid()
      modifies this, sock, buf
      ensures Valid() && (sock == old(sock) || sock == null || fresh(sock))
      ensures var r := Pull(old(View()), buf.Length, k);
              && View() == r.0 && ok == r.1.Some?
              && (ok ==> buf[..] == r.1.value)
    {
      var open := Connect(k);
      if open {
        ok := ReadOpen(buf);
      } else {
        ok := false;
      }
    }

    method ReadOpen(buf: array<byte>) returns (ok: bool)
      requires Valid() && sock != null
      modifies this`sock, this`closed, sock, buf
      ensures Valid() && (sock == old(sock) || sock == null)
      ensures var r := PullOn(old(View()), buf.Length);
              && View() == r.0 && ok == r.1.Some?
              && (ok ==> buf[..] == r.1.value)
    {
      ghost var from := sock.taken;
      var r, errno := ReadMsg(sock, buf);
      ok := r > 0;
      if ok {
        assert buf[..] == sock.incoming[from..sock.taken];
      } else if r == 0 {
        closed := closed + [ConnOf(sock)];
        sock := null;
      }
    }
  }

  /** `sockets[idx]` of a client: the connection made at its start, kept for ever. */
  class ClientChannel {
    const sock: Socket

    constructor (sock: Socket)
      ensures this.sock == sock
    {
      this.sock := sock;
    }

    method PushCore(msg: Msg) returns (ok: bool)
      modifies sock
      ensures var x := Transfer(0, |msg|, |msg|, sock.answers, old(sock.at));
              && ok == (x.outcome.Whole? && msg != [])
              && sock.sent == old(sock.sent) + msg[..x.moved]
              && sock.at == x.at && sock.taken == old(sock.taken)
    {
      var r, errno := SendMsg(sock, msg);
      return r > 0;
    }

    method PullCore(buf: array<byte>) returns (ok: bool)
      requires sock.Valid()
      modifies sock, buf
      ensures sock.Valid()
      ensures var x := Transfer(0, buf.Length, |sock.incoming| - old(sock.taken), sock.answers, old(sock.at));
              && ok == (x.outcome.Whole? && buf.Length > 0)
              && sock.taken == old(sock.taken) + x.moved
              && (ok ==> buf[..] == sock.incoming[old(sock.taken)..sock.taken])
              && sock.at == x.at && sock.sent == old(sock.sent)
    {
      var r, errno := ReadMsg(sock, buf);
      assert r > 0 ==> buf[..] == sock.incoming[old(sock.taken)..sock.taken];
      return r > 0;
    }
  }
}
