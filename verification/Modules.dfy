/** The four SystemVerilog modules as objects with registers, one method call per clock edge: right
    hand sides read the old registers, the assignments at the end of the method are the
    non-blocking ones. */
module Modules {
  import opened Wrappers
  import opened Messages
  import opened SocketIo
  import opened ReadyValid
  import opened Host
  import opened Clients

  class ServerPush {
    const server: ServerChannel
    var serverHasStarted: bool
    var dataRdy: bool
    var dataQ: Msg
    ghost var accepted: seq<Msg>

    ghost predicate Valid()
      reads this, server, server.sock
    {
      server.Valid() && (dataRdy ==> serverHasStarted)
    }

    ghost function View(): PushSide
      reads this, server, server.sock
    {
      PushSide(server.View(), PushRegs(serverHasStarted, dataRdy, dataQ), accepted)
    }

    constructor (server: ServerChannel)
      requires server.Valid()
      ensures Valid() && this.server == server
      ensures View() == PushSide(server.View(), PushRegs(false, false, []), [])
    {
      this.server := server;
      serverHasStarted, dataRdy, dataQ, accepted := false, false, [], [];
    }

    method Initial()
      requires Valid() && !serverHasStarted
      modifies this
      ensures Valid() && View() == NextPush(old(View()), Start)
    {
      serverHasStarted := true;
      dataRdy := true;
    }

    /** `done`: the call of this edge, if any, comes back at it, as it always does but on ZeBu. */
    method Posedge(dataVld: bool, data: Msg, done: bool, k: Luck)
      requires Valid()
      modifies this, server, server.sock
      ensures Valid() && View() == NextPush(old(View()), Edge(dataVld, data, done, k))
    {
      hide Push;
      if serverHasStarted {
        if dataVld && dataRdy {
          var ok := false;
          if done {
            ok := server.PushCore(data, k);
          }
          dataRdy, dataQ := ok, data;
          accepted := accepted + [data];
        } else if !dataRdy && done {
          var ok := server.PushCore(dataQ, k);
          dataRdy := ok;
        }
      }
    }
  }

  class ClientPush {
    const client: ClientChannel
    var clientHasStarted: bool
    var dataRdy: bool
    var dataQ: Msg

    ghost predicate Valid() reads this { dataRdy ==> clientHasStarted }

    ghost function Regs(): PushRegs<Msg> reads this { PushRegs(clientHasStarted, dataRdy, dataQ) }

    constructor (client: ClientChannel)
      ensures Valid() && this.client == client && Regs() == PushRegs(false, false, [])
    {
      this.client := client;
      clientHasStarted, dataRdy, dataQ := false, false, [];
    }

    method Initial()
      requires !clientHasStarted
      modifies this
      ensures Valid() && Regs() == PushStart(old(Regs()))
    {
      clientHasStarted := true;
      dataRdy := true;
    }

    /** Both `if`s of the process test the old `data_rdy`: at most one of them calls the DPI. */
    method Posedge(dataVld: bool, data: Msg)
      requires Valid()
      modifies this, client.sock
      ensures Valid()
      ensures match PushOffers(old(Regs()), dataVld, data)
              case None =>
                Regs() == old(Regs()) && client.sock.sent == old(client.sock.sent) && client.sock.at == old(client.sock.at)
              case Some(msg) =>
                var x := Transfer(0, |msg|, |msg|, client.sock.answers, old(client.sock.at));
                && Regs() == PushCommit(old(Regs()), dataVld, data, x.outcome.Whole? && msg != [])
                && client.sock.sent == old(client.sock.sent) + msg[..x.moved] && client.sock.at == x.at
    {
      var rdy, q := dataRdy, dataQ;
      if dataVld && dataRdy {
        rdy := client.PushCore(data);
        q := data;
      }
      if clientHasStarted && !dataRdy {
        rdy := client.PushCore(dataQ);
      }
      dataRdy, dataQ := rdy, q;
    }
  }

  /** The registers of multisim_server_pull and multisim_client_pull: `wait` is the place in the
      `repeat (dpi_delay)` loop, `calling` that in a call that takes cycles. */
  class PullRegisters {
    const delays: Delays
    var hasStarted: bool
    var dataVld: bool
    var data: Msg
    var dpiDelay: int
    var wait: nat
    var calling: bool

    ghost function View(): PullRegs<Msg> reads this { PullRegs(hasStarted, dataVld, data, dpiDelay, wait, calling) }

    constructor (delays: Delays)
      ensures View() == PullReset([]) && this.delays == delays
    {
      this.delays := delays;
      hasStarted, dataVld, data, dpiDelay, wait, calling := false, false, [], 0, 0, false;
    }

    method Initial()
      modifies this
      ensures View() == old(View()).(started := true)
    {
      hasStarted := true;
    }

    /** Everything of an edge but the DPI call: the edges that do not reach it end here. */
    method BeforeCall(dataRdy: bool) returns (call: bool)
      modifies this
      ensures call == PullCalls(old(View()), dataRdy)
      ensures call ==> View() == old(View())
      ensures forall ret :: !call ==> View() == PullCommit(old(View()), dataRdy, ret, delays)
    {
      if !hasStarted || calling {
        return hasStarted;
      }
      if wait == 0 {
        if dataVld && !dataRdy {
          return false;
        }
        if dpiDelay > 0 {
          dataVld, wait := false, dpiDelay;
          return false;
        }
      } else if wait > 1 {
        dataVld, wait := false, wait - 1;
        return false;
      }
      return true;
    }

    /** The end of an edge whose call has not come back, or has come back with `output`. */
    method AfterCall(ghost dataRdy: bool, done: bool, ok: bool, output: Msg)
      requires PullCalls(View(), dataRdy)
      modifies this
      ensures View() == PullCommit(old(View()), dataRdy, CallGives(done, ok, output), delays)
    {
      dataVld, wait, calling := done && ok, 0, !done;
      if done {
        data, dpiDelay := output, if ok then delays.active else delays.inactive;
      }
    }
  }

  function CallGives(done: bool, ok: bool, output: Msg): Return<Msg>
  {
    if !done then Pending else if ok then Success(output) else Fail(output)
  }

  class ServerPull {
    const server: ServerChannel
    const size: nat
    const regs: PullRegisters

    ghost predicate Valid()
      reads this, server, server.sock
    {
      server.Valid()
    }

    constructor (server: ServerChannel, size: nat, delays: Delays)
      requires server.Valid()
      ensures Valid() && this.server == server && this.size == size
      ensures fresh(regs) && regs.View() == PullReset([]) && regs.delays == delays
    {
      this.server, this.size := server, size;
      regs := new PullRegisters(delays);
    }

    /** `done`: the call of this edge, if any, comes back at it, as it always does but on ZeBu. */
    method Posedge(dataRdy: bool, done: bool, k: Luck) returns (ghost output: Msg)
      requires Valid()
      modifies regs, server, server.sock
      ensures Valid()
      ensures if PullCalls(old(regs.View()), dataRdy) && done then
                var r := Pull(old(server.View()), size, k);
                && server.View() == r.0
                && (r.1.Some? ==> output == r.1.value)
                && regs.View() == PullCommit(old(regs.View()), dataRdy, CallGives(true, r.1.Some?, output), regs.delays)
              else
                && server.View() == old(server.View())
                && regs.View() == PullCommit(old(regs.View()), dataRdy, Pending, regs.delays)
    {
      hide Pull;
      output := [];
      var call := regs.BeforeCall(dataRdy);
      if !call {
        return;
      }
      var dataDpi := new byte[size];
      var ok := false;
      if done {
        ok := server.PullCore(dataDpi, k);
      }
      output := dataDpi[..];
      regs.AfterCall(dataRdy, done, ok, dataDpi[..]);
    }
  }

  class ClientPull {
    const client: ClientChannel
    const size: nat
    const regs: PullRegisters

    constructor (client: ClientChannel, size: nat, delays: Delays)
      ensures this.client == client && this.size == size
      ensures fresh(regs) && regs.View() == PullReset([]) && regs.delays == delays
    {
      this.client, this.size := client, size;
      regs := new PullRegisters(delays);
    }

    method Posedge(dataRdy: bool) returns (ghost output: Msg)
      requires client.sock.Valid()
      modifies regs, client.sock
      ensures client.sock.Valid()
      ensures if PullCalls(old(regs.View()), dataRdy) then
                var x := Transfer(0, size, |client.sock.incoming| - old(client.sock.taken), client.sock.answers, old(client.sock.at));
                var ok := x.outcome.Whole? && size > 0;
                && client.sock.at == x.at && client.sock.taken == old(client.sock.taken) + x.moved
                && (ok ==> output == client.sock.incoming[old(client.sock.taken)..client.sock.taken])
                && regs.View() == PullCommit(old(regs.View()), dataRdy, CallGives(true, ok, output), regs.delays)
              else
                && client.sock.at == old(client.sock.at) && client.sock.taken == old(client.sock.taken)
                && regs.View() == PullCommit(old(regs.View()), dataRdy, Pending, regs.delays)
    {
      hide Transfer;
      output := [];
      var call := regs.BeforeCall(dataRdy);
      if !call {
        return;
      }
      var dataDpi := new byte[size];
      var ok := client.PullCore(dataDpi);
      output := dataDpi[..];
      regs.AfterCall(dataRdy, true, ok, dataDpi[..]);
    }
  }
}
