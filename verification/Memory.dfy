/** The 256-entry memory behind the read/write examples, and the local map it stands for. */
module Memory {
  import opened Numbers

  /** rw_cmd: three 64-bit words. */
  datatype Cmd = Cmd(rwb: uint64, address: uint64, wdata: uint64)

  type Mem = m: seq<uint64> | |m| == 256 witness seq(256, i => 0)

  function Cleared(): Mem { seq(256, i => 0) }

  /** address[7:0], address & 0xFF */
  function Slot(c: Cmd): (s: nat)
    ensures s < 256
  {
    c.address % 256
  }

  /** sw_server.cpp tests the whole word, top.sv its bit 0. */
  predicate IsRead(c: Cmd) { c.rwb != 0 }

  predicate IsReadBit(c: Cmd) { c.rwb % 2 == 1 }

  function Store(m: Mem, c: Cmd, read: bool): Mem { if read then m else m[Slot(c) := c.wdata] }

  function Response(m: Mem, c: Cmd, read: bool): uint64 { if read then m[Slot(c)] else 0 }

  function After(cmds: seq<Cmd>, isRead: Cmd -> bool): Mem
  {
    if cmds == [] then Cleared()
    else Store(After(cmds[..|cmds| - 1], isRead), cmds[|cmds| - 1], isRead(cmds[|cmds| - 1]))
  }

  function Responses(cmds: seq<Cmd>, isRead: Cmd -> bool): (rs: seq<uint64>)
    ensures |rs| == |cmds|
  {
    if cmds == [] then []
    else
      var front, c := cmds[..|cmds| - 1], cmds[|cmds| - 1];
      Responses(front, isRead) + [Response(After(front, isRead), c, isRead(c))]
  }

  /** What a local map would answer: the last value written to an address equal modulo 256, else 0. */
  function LastWritten(cmds: seq<Cmd>, address: uint64, isRead: Cmd -> bool): uint64
  {
    if cmds == [] then 0
    else
      var c := cmds[|cmds| - 1];
      if !isRead(c) && c.address % 256 == address % 256 then c.wdata
      else LastWritten(cmds[..|cmds| - 1], address, isRead)
  }

  lemma {:induction false} MemIsLocalMap(cmds: seq<Cmd>, address: uint64, isRead: Cmd -> bool)
    ensures After(cmds, isRead)[address % 256] == LastWritten(cmds, address, isRead)
  {
    if cmds != [] {
      MemIsLocalMap(cmds[..|cmds| - 1], address, isRead);
    }
  }

  /** Response `k` is the last value written to its address, or 0 for a write. */
  lemma {:induction false} ResponsesAreLocal(cmds: seq<Cmd>, k: nat, isRead: Cmd -> bool)
    requires k < |cmds|
    ensures Responses(cmds, isRead)[k] ==
            if isRead(cmds[k]) then LastWritten(cmds[..k], cmds[k].address, isRead) else 0
    decreases |cmds|
  {
    var front := cmds[..|cmds| - 1];
    if k < |front| {
      ResponsesAreLocal(front, k, isRead);
      assert front[..k] == cmds[..k] && front[k] == cmds[k];
    } else {
      assert front == cmds[..k];
      MemIsLocalMap(front, cmds[k].address, isRead);
    }
  }

  // ---- the operations of a client program ----

  /** read_server(address), whose third word is whatever the stack holds, and write_server(address, wdata). */
  datatype Op = Read(address: uint64, stale: uint64) | Write(address: uint64, wdata: uint64)

  function CmdOf(op: Op): Cmd
  {
    match op
    case Read(address, stale) => Cmd(1, address, stale)
    case Write(address, wdata) => Cmd(0, address, wdata)
  }

  function CmdsOf(ops: seq<Op>): (cmds: seq<Cmd>)
    ensures |cmds| == |ops|
  {
    seq(|ops|, i requires 0 <= i < |ops| => CmdOf(ops[i]))
  }

  /** The last value written by an operation to an address equal modulo 256, else 0. */
  function LastWrite(ops: seq<Op>, address: uint64): uint64
  {
    if ops == [] then 0
    else
      var op := ops[|ops| - 1];
      if op.Write? && op.address % 256 == address % 256 then op.wdata else LastWrite(ops[..|ops| - 1], address)
  }

  /** What operation `k` returns. */
  function OpResult(ops: seq<Op>, k: nat): uint64
    requires k < |ops|
  {
    match ops[k]
    case Read(address, _) => LastWrite(ops[..k], address)
    case Write(_, _) => 0
  }

  /** Both memories take the read of the client for a read, and its write for a write. */
  lemma BothTellReads(op: Op)
    ensures IsRead(CmdOf(op)) == IsReadBit(CmdOf(op)) == op.Read?
  {
  }

  lemma {:induction false} LastWriteIs(ops: seq<Op>, address: uint64, isRead: Cmd -> bool)
    requires forall op :: op in ops ==> isRead(CmdOf(op)) == op.Read?
    ensures LastWritten(CmdsOf(ops), address, isRead) == LastWrite(ops, address)
  {
    if ops != [] {
      var front := ops[..|ops| - 1];
      assert CmdsOf(ops)[..|ops| - 1] == CmdsOf(front);
      assert ops[|ops| - 1] in ops;
      LastWriteIs(front, address, isRead);
    }
  }

  /** The answer of a local map to command `k` is the result of operation `k`. */
  lemma AnswerIsResult(ops: seq<Op>, k: nat, isRead: Cmd -> bool)
    requires k < |ops| && forall op :: op in ops ==> isRead(CmdOf(op)) == op.Read?
    ensures var cmds := CmdsOf(ops);
            (if isRead(cmds[k]) then LastWritten(cmds[..k], cmds[k].address, isRead) else 0) == OpResult(ops, k)
  {
    assert ops[k] in ops;
    assert CmdsOf(ops)[..k] == CmdsOf(ops[..k]);
    LastWriteIs(ops[..k], ops[k].address, isRead);
  }
}
