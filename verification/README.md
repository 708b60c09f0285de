# multisim channels, modelled and proved in Dafny

multisim links hardware simulations and programs by channels: a ready/valid link cut in two and carried
over a non-blocking socket. A push module accepts a word, the C++ library sends it as a message of a fixed
number of bytes in whatever pieces the kernel takes, the other process reassembles it, and a pull module
shows it to its own clock. The README of the repository promises that this is transactionally accurate
(README.md:166). This project states what that means and proves it, from system calls up to the protocols
built on channels.

`dafny verify dfyconfig.toml` checks everything.

## How it is built

| files | what they model |
|---|---|
| `Numbers.dfy`, `Messages.dfy`, `SocketIo.dfy` | messages on a byte stream; `send_msg` and `read_msg` against a kernel that moves any part of what is asked, answers EAGAIN or EINTR, ends or breaks |
| `Host.dfy`, `Clients.dfy` | the accept, push and pull of a server channel over successive clients; the client calls |
| `ReadyValid.dfy` | push and pull modules as registers that read the old state and commit at the end of an edge; a channel word by word |
| `Modules.dfy` | the four SystemVerilog modules as objects around the host side |
| `Channel.dfy`, `Delivery.dfy` | both modules, both processes and the stream, one system call or edge a step; its refinement of `ReadyValid`; words rather than bytes |
| `Encoding.dfy` | packing of a word of any width, 4-state planes |
| `Backoff.dfy`, `Memory.dfy`, `PullThenPush.dfy` | `pull_then_push`, its delays, the hardware memory behind it, edge by edge |
| `MemoryWire.dfy`, `RemoteMemory.dfy`, `MemoryClient.dfy`, `EmulatedMemory.dfy` | the read/write examples over the host side of their channels: the software server, its client, the hardware server with the same client |
| `QuasiStatic.dfy`, `Apb.dfy` | the quasi-static transport and the APB bridge over the channels of `ReadyValid` |
| `ZebuCalls.dfy`, `ZebuNames.dfy` | deferred calls and packed server names of ZeBu |
| `FileNames.dfy`, `InfoFile.dfy` | names of the info files and Unix sockets; printer and parser of an info file |

The code that updates state is a class or a method. Its contract says that a call is one step of a step
function: `SendMsg` and `ReadMsg` of `Transfer`, `ServerChannel` of `Push` and `Pull`, the push and pull modules
of `NextPush`, `PushCommit` and `PullCommit`, `SwServer` and `SwClient` of `RemoteMemory` and `MemoryClient`,
`ApbBridge` of `OnClient` and `OnServer`, `QuasiStaticLine` of `LineNext`, `Transactor` of `ZebuCalls.Next`,
`ZebuTable` of `ZebuStart`. The theorems are about every run of those step functions. The kernel, the peer, the
clocks and the order of the processes are arguments: sequences of answers and events, quantified over.

Next to what every run keeps stands what can still happen: from every state of a live connection everything accepted
can be taken (`Channel.CanDrain`, `ReadyValid.CanDrain`), a word kept can be received (`Clients.WordCanBeReceived`), the
quasi-static receiver can catch up, a transfer, a command and a deferred call can be finished.

`Channel` is the centre. `ChannelIsFifo` holds for every interleaving of two clocks, partial sends and
reads, EAGAIN, EINTR and disconnections; `EdgeIsSendMsg` and `EdgeIsReadMsg` show that the calls of one edge
are one run of the loops of `SocketIo`, with the same result and the same bytes; `Refines` maps each system call
to steps of the word-by-word channel that `QuasiStatic` and `Apb` use.

The memory examples are built on `Host` instead: clients come and go, every system call may fail, and the two
processes only share that a stream delivers in order bytes that were sent. `Serving` is what the software server
and the hardware one have in common. `ClientIsServed` says to which command each response that a client gets
belongs, and when that is its own call.

## What the code does not do

Places where the code does less than one could hope; each has an exact condition.

- The APB client side may show a request valid while its push module is not ready: `request_vld` is a latch in
  ACCESS, and stays set exactly while the accepted request is being sent again (`NeverRefused` inside
  `Apb.ExactlyOnceIff`; `Apb.RequestShownWhileRetried` is a run). Nothing is sent twice because of it.
- A request that the APB client side offers in SETUP before its channel has started is dropped and its
  transfer never ends (`Apb.RequestDropped`). The bridge is exactly-once if and only if that does not happen
  (`Apb.ExactlyOnceIff`).
- A server push drops a client that has not hung up exactly if a signal interrupts its first `send`
  (`Clients.PushDropsLiveIff`): multisim_server.cpp:142 keeps the connection on EAGAIN only. No word is lost or
  received by two clients (`Clients.PushOverClients`).
- `assert(r > 0)` of sw_server.cpp:51 fails if and only if the server has no connection to push to and accepts none,
  or the kernel does not take 8 bytes on the one it has (`RemoteMemory.AssertFailsIff`). With a single client
  that stays, this comes down to the interruption above (`MemoryClient.AssertWhileConnected`,
  `RemoteMemory.InterruptedPushAborts`). But a second client is enough for it to fail without one: a connection
  that a client has left is only noticed by the push of a response to the next client
  (`RemoteMemory.StaleConnectionAborts`).
- The hardware server retries the response to a client that has left until the next client takes it, which then has
  the response to a command that it did not send (`EmulatedMemory.OthersResponse`: it reads 0 where the value written
  is v, before its own command is pulled). The results of a client are the responses to its own calls if and only if
  the clients before it got as many responses as they had commands executed, and its own commands are pulled
  (`MemoryClient.OwnIff`). The software server stops instead: it has one response connection in all its life
  (`MemoryClient.OneResponseConnection`).
- A server pull keeps a connection that has hung up exactly if the first answer to it is a permanent error
  (`Clients.PullKeepsDeadIff`), since multisim_server.cpp:67 closes on 0 only; as long as the kernel answers so, it
  accepts no other client (`Clients.DeadPullForEver`).
- A Unix socket path with a space in it is printed whole and read up to the space: it comes back if and only if it has
  none and fits its field (`InfoFile.ParsePrintAnyPath`).
- For an INACTIVE delay of 2^29 or more, the shift of `get_inactive_dpi_delay` overflows. A server that has had no
  message yet settles on INACTIVE if and only if that is below 2^29 (`Backoff.SettlesFromResetIff`); from any
  registers, also if INACTIVE is in one band above and one of 16 shifts gets to it (`Backoff.SettlesIff`).
  Otherwise the delay goes round for ever, sometimes through negative values (`Backoff.InBandButNeverSettles`,
  `Backoff.DelayGoesNegative`).
- An info file read while the server writes it (client.cpp:121) is accepted as soon as it has a digit of the port:
  one cut inside the digits always gives another port (`InfoFile.CutPortIsWrong`), and `InfoFile.ParseCut` says what
  every other prefix gives.

The two read/write examples differ in one point: the hardware looks at bit 0 of the first command word
(top.sv:42), the software at the whole word (sw_server.cpp:41). Both are modelled as coded.

## Model

| member | source | states |
|---|---|---|
| SocketIo.SocketWaitAndRetry | src/core/socket_server/socket_io.h:12-22 | nothing transferred: the result of the call; inside a message: retry on EAGAIN and EINTR, otherwise 0 |
| SocketIo.SendMsg | src/core/socket_server/socket_io.h:24-35 | the bytes on the stream are the first ones of the message, as many as the transfer of these kernel answers moves; result and errno; the loop ends |
| SocketIo.ReadMsg | src/core/socket_server/socket_io.h:37-48 | the buffer starts with the next bytes of the stream in order, the rest of it is untouched; result and errno; the loop ends |
| SocketIo.TransferContract | src/core/socket_server/socket_io.h:9-48 | result = size exactly if all bytes moved, negative only if none did, 0 only on a proper prefix |
| SocketIo.TransferWholeIff | src/core/socket_server/socket_io.h:24-48 | a message crosses whole if and only if the kernel starts it at once and pays for all of its bytes before hanging up; EAGAIN and EINTR in between do not matter |
| Host.ServerChannel.AcceptNewSocket | src/core/socket_server/server.cpp:100-116 | the oldest client of the Unix socket, else of the TCP socket, else none; the queues lose that client only |
| Host.OldestIsAccepted | src/core/socket_server/server.cpp:100-116 | the client accepted is the one that has waited longest on the Unix socket, or on the TCP socket if there is none on the other or its accept fails; who is accepted if and only if what, and nobody else leaves the queues |
| Host.ServerChannel.Connect | src/core/multisim_server.cpp:55-60 | an open connection is kept, otherwise a client is accepted |
| Host.ServerChannel.PushCore | src/core/multisim_server.cpp:108-148 | new state of the channel and result: kept on success and EAGAIN, closed on 0 and any other error |
| Host.ServerChannel.PullCore | src/core/multisim_server.cpp:55-86 | new state of the channel and message: kept on success and failure without a byte, closed on 0 |
| Host.ClientChannel.PushCore | src/core/multisim_client.cpp:115-119 | success exactly if the whole message went out, after the bytes sent before |
| Host.ClientChannel.PullCore | src/core/multisim_client.cpp:135-152 | success exactly if a whole message came in, which is then the next bytes of the stream |
| Clients.SendAligned | src/core/multisim_server.cpp:139-147 | on a stream aligned on messages a send completes one message or leaves a proper prefix of it, empty unless the connection is dead |
| Clients.PushOnce | src/core/multisim_server.cpp:108-148 | one push adds its message to what clients receive exactly if it succeeds, and keeps the open stream aligned |
| Clients.PushSucceedsIff | src/core/multisim_server.cpp:108-148 | a push succeeds if and only if there is a connection, open or accepted now, on which the kernel starts the message at once and pays for all of it before hanging up |
| Clients.PushDropsLiveIff | src/core/multisim_server.cpp:139-147 | a push closes a connection that has not hung up if and only if the first answer to it is EINTR |
| Clients.PushInvStep | src/core/multisim_server_push.sv:37-52 | an edge of the push module, its start, a call of several cycles or a new client keep the invariant of PushOverClients |
| Clients.PushOverClients | src/core/multisim_server_push.sv:37-52 | over every run and all clients: accepted words = whole messages received, client after client, then the pending word; a cut message belongs to a dead connection and is the beginning of the next word to be received |
| Clients.EdgeSendsIff | src/core/multisim_server_push.sv:39-50 | an edge with a word on offer or a word kept makes the module ready again if and only if there is a connection that takes that word, and clients receive exactly that word exactly then |
| Clients.PendingCanBeReceived | src/core/multisim_server_push.sv:46-50 | from every reachable state with a word kept, whatever its clients have done, some arrival of a client and some edges make a client receive that word |
| Clients.WordCanBeReceived | src/core/multisim_server_push.sv:22-50 | from every reachable state, started or not, a further word can be accepted and received by a client, after the word kept |
| Clients.ClientReceivesSlice | src/core/multisim_server.cpp:108-148 | each client receives its own slice of the accepted words and the slices follow one another: no word is received by two clients |
| Clients.ReadAligned | src/core/multisim_server.cpp:62-72 | a read returns the next whole message of the client, or drops less than one message, and nothing on a failure that keeps the connection |
| Clients.PullKeepsDeadIff | src/core/multisim_server.cpp:62-72 | after a pull the open connection has hung up if and only if there is one and the first answer to the pull is a permanent error |
| Clients.PullSucceedsIff | src/core/multisim_server.cpp:55-86 | a pull returns a message, the next one of the connection, if and only if there is a connection with a whole message left, which the kernel starts at once and gives whole |
| Clients.DeadPullForEver | src/core/multisim_server.cpp:55-72 | over every further run of such a connection: nothing is returned, nobody is accepted |
| Clients.PullInvStep | src/core/multisim_server.cpp:55-72 | a pull or a new client keep the invariant of PullOverClients |
| Clients.PullOverClients | src/core/multisim_server.cpp:55-72 | over every run: the messages returned are the whole messages read from each connection in accept order, no tail is reported or joined to the next client, and an orderly client was read to its last byte |
| Clients.ReadIsPrefix | src/core/multisim_server.cpp:62-72 | the messages read from a client are a prefix of its whole messages, all of them once it has given all of its bytes |
| ReadyValid.InvStep | src/core/multisim_client_push.sv:32-44 | every step keeps the order of the words, and each accepted word in one place while the connection is up |
| ReadyValid.InvRun | src/core/multisim_server_pull.sv:33-48 | the same over every run of the word-by-word channel, calls that take cycles included |
| ReadyValid.CanDrain | src/core/multisim_client_push.sv:39-43 | from every state of a connection that is up, whatever the delays, some edges, after the start of the pull module, have the consumer take every word accepted so far |
| ReadyValid.PullHandshake | src/core/multisim_server_pull.sv:33-48 | for every ready pattern and delay: a word on show holds until taken; words pulled = words taken, then the one on show |
| ReadyValid.CallSpacing | src/core/multisim_server_pull.sv:36-46 | once the word of a call is taken, the next call comes exactly ACTIVE edges after a success, INACTIVE edges after a failure, whatever ready does |
| Modules.ServerPush.Initial | src/core/multisim_server_push.sv:23-33 | started and ready become visible together |
| Modules.ServerPush.Posedge | src/core/multisim_server_push.sv:37-52 | one edge is one step of the push side of Clients, calls of several cycles included |
| Modules.ClientPush.Posedge | src/core/multisim_client_push.sv:32-44 | at most one message is sent, the new word or the kept one; registers follow its result |
| Modules.PullRegisters.BeforeCall | src/core/multisim_server_pull.sv:34-42 | which edges reach the DPI call, and the registers after those that do not |
| Modules.PullRegisters.AfterCall | src/core/multisim_server_pull.sv:43-46 | the registers after an edge whose call goes on, fails or succeeds, for client and server pull alike |
| Modules.ServerPull.Posedge | src/core/multisim_server_pull.sv:34-48 | one edge makes at most one pull, once its call comes back, and commits its result; calls of several cycles included |
| Modules.ClientPull.Posedge | src/core/multisim_client_pull.sv:34-47 | the same on the client's connection |
| Channel.Refines | src/core/socket_server/socket_io.h:24-48 | a system call, an edge or a disconnection is a run of at most two steps of the word-by-word channel, and keeps the stream aligned on messages |
| Channel.FifoNow | src/core/socket_server/socket_io.h:9-11 | in every aligned state: accepted words = taken, held valid, reassembled from reader buffer, stream and sender remainder, unsent data_q |
| Channel.ChannelIsFifo | src/core/multisim_server_pull.sv:34-47 | over every interleaving of clocks, partial sends and reads, EAGAIN, EINTR and disconnections: words come out in the order they went in, none lost or doubled while the connection is up |
| Channel.NoDeadlockInsideMessage | src/core/socket_server/socket_io.h:12-22 | a reader waiting inside a message on an empty stream has exactly what the sender, inside that same message, has sent; a full stream has bytes for the next read |
| Channel.TransferDecreases | src/core/socket_server/socket_io.h:24-48 | each call that moves bytes decreases bytes left to send plus bytes left to read, and no call increases them |
| Channel.SenderCanFinish | src/core/socket_server/socket_io.h:24-35 | from every state of a live connection, also before the pull module starts, some steps make the push under way return success, with any capacity and delays |
| Channel.ReaderCanFinish | src/core/socket_server/socket_io.h:37-48 | from every state of a live connection some steps complete a message that a reader has begun |
| Channel.OfferIsAccepted | src/core/multisim_client_push.sv:33-38 | an edge with a word on offer and the module ready accepts it |
| Channel.CanDrain | src/core/socket_server/socket_io.h:24-48 | from every state of a run whose connection is up, with any capacity and delays, some system calls and edges have the consumer take every word accepted so far |
| Channel.EdgeIsSendMsg | src/core/multisim_client_push.sv:33-43 | the system calls of one push edge, whatever happens in between, are one run of send_msg: same result and errno, the same bytes of the message on the stream, and the edge commits that result |
| Channel.EdgeIsReadMsg | src/core/multisim_server_pull.sv:42-46 | the same for a pull edge and read_msg: same result, as many bytes, all taken off the stream, committed as the word if the message is whole |
| Encoding.PushPacked | src/core/multisim_client_common.svh:75-94 | the words or planes of the padded vector, slice by slice |
| Encoding.SendBuffer | src/core/multisim_server.cpp:117-128 | the buffer holds all aval words, then all bval words |
| Encoding.PullBuffer | src/core/multisim_server_common.svh:78-97 | every bit of the vector comes from its place in the received planes |
| Encoding.PlanesRoundTrip | src/core/multisim_server.cpp:74-84 | 32 four-valued bits come back from their two planes; the 2-state word gives their projection |
| Encoding.RoundTrip | src/core/multisim_client_common.svh:54-94 | at every width and whatever the padding holds, decoding gives the vector back, or X and Z as 0 in 2-state mode; the size depends on the word count and the 4-state flag |
| Encoding.WordsHold | src/core/multisim_server_common.svh:6-7 | the words of a vector hold it and are as few as can be |
| Encoding.MessageLayout | src/core/multisim_server.cpp:115-128 | bit b of a vector is bit b modulo 32 of word b/32 of its message: of the aval plane and of the bval plane after it, or of the 2-state words |
| Delivery.WordsDelivered | src/core/multisim_server_common.svh:78-118 | over every run of a channel the vectors pulled are the vectors pushed, in order, projected in 2-state mode; all of them once nothing is on the way |
| Backoff.DelayFollowsRamp | src/core/multisim_server_pull_then_push.sv:52-64 | on 32-bit arithmetic the delay is ACTIVE during the grace pulls and then the ramp, for ever, also when the grace count wraps |
| Backoff.DelayAfterPulls | src/core/multisim_server_pull_then_push.sv:80-83 | after any pulls: ACTIVE for GRACE empty pulls after the last message, then the ramp from ACTIVE; the ramp from 0 if there was no message |
| Backoff.BackoffConverges | src/core/multisim_server_pull_then_push.sv:80-83 | the delay never decreases, grows by 4 (0 to 1) up to INACTIVE, is there within log4(INACTIVE) + 2 empty pulls after the grace period, and the ramp costs less than 4/3 of INACTIVE |
| Backoff.StepsBound | src/core/multisim_server_pull_then_push.sv:54-64 | number of empty pulls from any delay to INACTIVE |
| Backoff.RampSumBound | src/core/multisim_server_pull_then_push.sv:54-64 | sum of the delays of the ramp below INACTIVE |
| Backoff.RampFromReset | src/core/multisim_server_pull_then_push.sv:66-67 | before the first message the ramp starts at 0, without a grace period |
| Backoff.DelayIsBounded | src/core/multisim_server_pull_then_push.sv:80-83 | after any sequence of full and empty pulls the delay is between 0 and INACTIVE |
| Backoff.SettlesIff | src/core/multisim_server_pull_then_push.sv:54-64 | over every number of empty pulls, wraps of the grace count included, from any registers: the delay gets to INACTIVE and stays there if and only if INACTIVE is below 2^29, or it is in one band above and one of 16 shifts of the delay gets to it |
| Backoff.SettlesFromResetIff | src/core/multisim_server_pull_then_push.sv:66-83 | from reset, if and only if INACTIVE is below 2^29 |
| Backoff.InBandButNeverSettles | src/core/multisim_server_pull_then_push.sv:61 | INACTIVE = 1500000000 with ACTIVE = 1 goes round for ever, with ACTIVE = 375000000 it settles |
| Backoff.DelayGoesNegative | src/core/multisim_server_pull_then_push.sv:61 | the delay after INACTIVE = 2^29 + 1 is negative |
| Backoff.InactiveIsFixedIff | src/core/multisim_server_pull_then_push.sv:61-63 | one empty pull at INACTIVE: for which values it changes nothing |
| Memory.MemIsLocalMap | example/sw_server/sw_client/read_write/src/sw_server.cpp:39-47 | after any commands the memory holds the last value written to an address equal modulo 256, else 0 |
| Memory.ResponsesAreLocal | example/emu_server/sw_client/read_write/src/top.sv:75-81 | the response to each command is what a local map answers |
| Memory.BothTellReads | example/sw_server/sw_client/read_write/src/sw_client.cpp:22-35 | the software and the hardware memory take the client's read for a read and its write for a write |
| PullThenPush.LoopInvStep | src/core/multisim_server_pull_then_push.sv:68-110 | every edge of the module and the memory keeps: the last command is pulled, executed or answered in exactly one place |
| PullThenPush.NoCommandLost | example/emu_server/sw_client/read_write/src/top.sv:67-89 | for every delay setting: the memory waits for a command in the one cycle in which valid is high, pulls and accepted pushes alternate, and response k is the result of command k, however often pushes fail |
| PullThenPush.PaceOfRun | src/core/multisim_server_pull_then_push.sv:77-83 | over every run the delay is that of the backoff in the number of empty pulls since the last message: ACTIVE during the grace period, then the ramp, between 0 and INACTIVE |
| PullThenPush.PullStarts | src/core/multisim_server_pull_then_push.sv:77-79 | a pull that returns a command shows it, and its response is then due |
| PullThenPush.CommandCanBeAnswered | src/core/multisim_server_pull_then_push.sv:90-108 | from every state with a response due, at most two edges push it, if their push succeeds |
| PullThenPush.PullAfterDelay | src/core/multisim_server_pull_then_push.sv:70-77 | an idle process pulls after exactly dpi_delay edges |
| PullThenPush.PullThenPushModule.Posedge | src/core/multisim_server_pull_then_push.sv:68-110 | one edge of the process, at each of its wait points |
| PullThenPush.PullThenPushModule.FinishPull | src/core/multisim_server_pull_then_push.sv:77-83 | the registers after a pull: valid, data, delay and grace count |
| PullThenPush.TopMemory.Posedge | example/emu_server/sw_client/read_write/src/top.sv:67-89 | one edge of the memory process, at each of its wait points, memory included |
| MemoryWire.CmdRoundTrip | example/sw_server/sw_client/read_write/src/sw_server.cpp:34-37 | a command comes back from its 24 bytes |
| MemoryWire.CmdByteAt | example/sw_server/sw_client/read_write/src/sw_client.cpp:22-25 | byte n of word f of a command is byte 8 f + n of its message: what, where and with what, least significant byte first |
| MemoryWire.RspByteAt | example/sw_server/sw_client/read_write/src/sw_server.cpp:50 | byte n of a response is byte n of its message |
| MemoryWire.RspRoundTrip | example/sw_server/sw_client/read_write/src/sw_client.cpp:37-40 | a response comes back from its 8 bytes |
| RemoteMemory.ServingPull | example/sw_server/sw_client/read_write/src/sw_server.cpp:31-33 | a pull adds at most one command, the next one of the clients in accept order |
| RemoteMemory.ServingPush | example/sw_server/sw_client/read_write/src/sw_server.cpp:49-50 | a push adds the pending response to those that clients receive exactly if it succeeds |
| RemoteMemory.ServerInvStep | example/sw_server/sw_client/read_write/src/sw_server.cpp:21-53 | every call of the loop and every new client keep: memory of the commands executed, responses sent are theirs, but for one pending |
| RemoteMemory.ServerRun | example/sw_server/sw_client/read_write/src/sw_server.cpp:21-53 | the same over every run, with any clients and any answers of the kernel |
| RemoteMemory.ExitEndsLoop | example/sw_server/sw_client/read_write/src/sw_server.cpp:23-29 | the poll of the exit channel ends the loop if and only if there is a whole message on it that the kernel gives at once |
| RemoteMemory.AssertFailsIff | example/sw_server/sw_client/read_write/src/sw_server.cpp:49-51 | the assert fails if and only if there is no connection for responses and none is accepted, or the one there is does not take 8 bytes |
| RemoteMemory.InterruptedPushAborts | src/core/multisim_server.cpp:139-147 | a run in which it fails because send is interrupted, on a connection that is not dead and takes 8 bytes later |
| RemoteMemory.StaleConnectionAborts | src/core/multisim_server.cpp:108-146 | a run in which it fails because the client before has left, while the client to answer waits to be accepted |
| RemoteMemory.SwServer.PollExit | example/sw_server/sw_client/read_write/src/sw_server.cpp:22-29 | the state after the pull of the exit channel |
| RemoteMemory.SwServer.PollCmd | example/sw_server/sw_client/read_write/src/sw_server.cpp:31-47 | the state after the pull of the command channel, memory in place, and the response to send |
| RemoteMemory.SwServer.Respond | example/sw_server/sw_client/read_write/src/sw_server.cpp:49-51 | the state after the push of the response, stopped if it fails |
| RemoteMemory.SwServer.Loop | example/sw_server/sw_client/read_write/src/sw_server.cpp:21-53 | any number of turns of the loop are steps of the server of ServerRun, until the exit command or a failed assert |
| MemoryClient.SendKeeps | example/sw_server/sw_client/read_write/src/sw_client.cpp:22-26 | a push sends the command whole or stops the client |
| MemoryClient.ReceiveKeeps | example/sw_server/sw_client/read_write/src/sw_client.cpp:27-28 | a pull receives the next response or stops the client |
| MemoryClient.ClientRun | example/sw_server/sw_client/read_write/src/sw_client.cpp:18-41 | over every run the commands sent and the responses received are the whole messages of its connections, one call waiting at most |
| MemoryClient.ClientIsServed | example/sw_server/sw_client/read_write/src/sw_client.cpp:31-41 | of a memory server, in software or hardware, with any clients before and after: result k is what a local map answers to the command executed after as many as the clients before got responses, and k more; that is the client's own call k if and only if those clients got as many responses as they had commands executed, and call k is pulled |
| MemoryClient.OriginIs | example/sw_server/sw_client/read_write/src/sw_server.cpp:31-33 | which client sent a command, and which of its commands it is, from the numbers of commands pulled before |
| MemoryClient.OwnIff | example/sw_server/sw_client/read_write/src/sw_client.cpp:31-41 | all results of a client answer its own calls if and only if it is in step; for the last client, if and only if the clients before got as many responses as they had commands executed |
| MemoryClient.OneResponseConnection | src/core/multisim_server.cpp:139-147 | a client of the software server has results only on its first response connection: no later one ever gets any |
| MemoryClient.LoneClient | example/sw_server/sw_client/read_write/src/sw_client.cpp:18-41 | a client alone: each read returns the last value written to an address equal modulo 256, else 0, the commands executed are its own, and at most one command or response is in flight |
| MemoryClient.LoneOperations | example/sw_server/sw_client/read_write/src/sw_client.cpp:18-41 | of a client alone that reads and writes: a read returns the last value that an earlier write of its own put at an address equal modulo 256, else 0, a write returns 0 |
| MemoryClient.SwMemoryIsLocal | example/sw_server/sw_client/read_write/src/sw_client.cpp:18-41 | over every run of the software server and a client, with any other clients: its results are what a local map answers to commands executed, and its own calls if and only if no client before it had one executed; of a client alone always |
| MemoryClient.SwOperations | example/sw_server/sw_client/read_write/src/sw_client.cpp:60-83 | over every run of the software server the results of a client are those of its reads and writes, if it is alone, or of the operations executed from the first one on |
| MemoryClient.ResponseStreamIsEmpty | example/sw_server/sw_client/read_write/src/sw_server.cpp:49-50 | when a response to a lone client is pending it has read everything sent before: a stream with any capacity has room |
| MemoryClient.AssertWhileConnected | example/sw_server/sw_client/read_write/src/sw_server.cpp:49-51 | while the only client stays connected the assert fails if and only if send is interrupted |
| MemoryClient.LoneClientInterrupted | src/core/multisim_server.cpp:139-147 | such a server and client, and the interruption that makes the assert fail |
| MemoryClient.SwClient.ReadServer | example/sw_server/sw_client/read_write/src/sw_client.cpp:31-41 | a read is a push and a pull on the client's two connections, and returns the response received |
| MemoryClient.SwClient.WriteServer | example/sw_server/sw_client/read_write/src/sw_client.cpp:18-29 | a write is a push and a pull on the client's two connections |
| EmulatedMemory.EmuInvStep | src/core/multisim_server_pull_then_push.sv:68-110 | every edge of the module and its memory over the host side of both channels keeps: commands pulled are the clients', responses received are theirs |
| EmulatedMemory.EmuServes | example/emu_server/sw_client/read_write/src/top.sv:50-89 | the same over every run, with any clients, delays and failing calls |
| EmulatedMemory.EmulatedIsLocal | example/emu_server/sw_client/read_write/src/top.sv:50-89 | over every run of hardware and client, with any other clients: its results are what a local map answers to commands executed, and to its own calls if and only if it is in step |
| EmulatedMemory.EmulatedOperations | example/emu_server/sw_client/read_write/src/top.sv:67-89 | over every run of the hardware server the results of a client are those of its reads and writes, if it is alone, or of the operations executed after as many as the clients before got responses |
| EmulatedMemory.OthersResponse | src/core/multisim_server_pull_then_push.sv:104-107 | a run in which a client that reads gets the response to the write of the client before |
| QuasiStatic.DedupIsStutterFree | src/quasi_static/multisim_client_quasi_static_push.sv:22-26 | samples without consecutive repeats: same first and last sample, no two neighbours equal |
| QuasiStatic.LineInvStep | src/quasi_static/multisim_client_quasi_static_push.sv:22-36 | every edge keeps: samples without repeats = accepted words, the word offered, the queue |
| QuasiStatic.StutterEquivalent | src/quasi_static/multisim_server_quasi_static_pull.sv:15-19 | over every run the values the receiver sees are a prefix of the samples without repeats; drained on a live connection, it has the last sample |
| QuasiStatic.OffersIff | src/quasi_static/multisim_client_quasi_static_push.sv:23-35 | when nothing is on show or it is taken, the sender shows a word if and only if one was queued or the sample is a change, the oldest of them |
| QuasiStatic.CanCatchUp | src/quasi_static/multisim_server_quasi_static_pull.sv:15-19 | from every state of a line that is up, whatever the delays, some edges that repeat the last sample, after the start of the modules, drain it: the receiver then has that sample and has seen every change |
| QuasiStatic.ClientQuasiStaticPush.Posedge | src/quasi_static/multisim_client_quasi_static_push.sv:22-36 | one edge of the sender on its queue and registers |
| QuasiStatic.ServerQuasiStaticPull.Posedge | src/quasi_static/multisim_server_quasi_static_pull.sv:15-19 | the register holds the last value taken, the initial one before any; an edge takes the value on show, if any |
| QuasiStatic.QuasiStaticLine.SendPosedge | src/quasi_static/multisim_client_quasi_static_push.sv:22-48 | sender and its push module together make the step of StutterEquivalent |
| QuasiStatic.QuasiStaticLine.ReceivePosedge | src/quasi_static/multisim_server_quasi_static_pull.sv:13-29 | receiver and its pull module together make the step of StutterEquivalent |
| Apb.ClientStep | src/apb/multisim_client_apb_push.sv:47-62 | an edge of the client side keeps the invariant of the bridge, or drops a request if and only if it offers it before its channel has started |
| Apb.ServerStep | src/apb/multisim_server_apb_pull.sv:45-64 | an edge of the server side keeps the invariant, with any subordinate |
| Apb.LoseStep | src/apb/multisim_client_apb_push.sv:64-88 | a connection that has gone down and loses what it carries keeps the invariant |
| Apb.BridgeRun | src/apb/multisim_apb_fsm.sv:20-36 | over every run of both sides and channels: the transfer under way is in exactly one place, or was dropped |
| Apb.LostForEver | src/apb/multisim_client_apb_push.sv:47-62 | after a dropped request no step completes the transfer or sends a request |
| Apb.ExactlyOnceIff | src/apb/multisim_server_apb_pull.sv:45-64 | with a manager and a subordinate that follow the protocol, any delays and connections that may go down: one request and at most one response a transfer, the k-th response answers the k-th request, if and only if no request is offered before its channel has started; then a word shown to a push module that is not ready is one it is sending again, and the transfer is only lost to a connection that is down |
| Apb.TransferCanFinish | src/apb/multisim_server_apb_pull.sv:45-64 | from every state with a transfer in its access phase and both connections up, some edges, after the start of the server if need be, complete it, whatever the delays |
| Apb.SubordinateSees | src/apb/multisim_server_apb_pull.sv:51-64 | the subordinate sees a setup phase of one edge, then an access phase with the same request until it is ready |
| Apb.ManagerSees | src/apb/multisim_client_apb_push.sv:49-51 | the manager sees pready in the access phase of its transfer only, with the response to it |
| Apb.RequestDropped | src/apb/multisim_client_apb_push.sv:53-62 | a run in which the request is dropped |
| Apb.RequestShownWhileRetried | src/apb/multisim_client_apb_push.sv:57-59 | a run in which request_vld is shown to a push module that is not ready |
| Apb.ClientSide.Posedge | src/apb/multisim_apb_fsm.sv:20-36 | state machine, latch and manager together: an edge and the settling after it are those of OnClient |
| Apb.ServerSide.Posedge | src/apb/multisim_server_apb_pull.sv:51-64 | state machine and latched request together: an edge and the settling after it are those of OnServer |
| Apb.ApbBridge.ClientPosedge | src/apb/multisim_client_apb_push.sv:34-88 | the client module around its push and pull modules makes the step of BridgeRun |
| Apb.ApbBridge.ServerPosedge | src/apb/multisim_server_apb_pull.sv:32-88 | the server module around its pull and push modules makes the step of BridgeRun |
| Apb.ClientApbPush.AlwaysComb | src/apb/multisim_client_apb_push.sv:53-62 | request_vld, a latch in ACCESS |
| Apb.ServerApbPull.AlwaysComb | src/apb/multisim_server_apb_pull.sv:51-64 | request_rdy, psel, penable, and the request latched in SETUP |
| ZebuCalls.StatusFields | src/core/multisim_server.cpp:234-237 | the shift drops the upper bit of the counter and nothing else; bit 0 is the result |
| ZebuCalls.InvStep | src/core/multisim_common.svh:57-116 | an edge, a call run by the host or a stored status, of any transactor, keep: one call outstanding at most, counts agree modulo 2^31 |
| ZebuCalls.NoStaleStatus | src/core/multisim_common.svh:57-77 | from reset, with any transactors interleaved and through any wraps: the k-th status a process uses is that of its k-th call, with the data and the result of the host's k-th reply to it |
| ZebuCalls.RepliesAre | src/core/multisim_server.cpp:244-261 | the replies of the host to a transactor are those of the events at which it has a call to answer, in order |
| ZebuCalls.CallBegins | src/core/multisim_common.svh:57-61 | an edge of an idle process at which it makes a call puts one under way |
| ZebuCalls.CallCanFinish | src/core/multisim_common.svh:57-96 | from every state with a call under way, whatever the other transactors have done, some events of its own make it return a status |
| ZebuCalls.ForkWaits | src/core/multisim_common.svh:85-93 | a status is stored no earlier than the latency in edges after its call |
| ZebuCalls.HostCounters.ZebuStatus | src/core/multisim_server.cpp:234-237 | the counter of that server goes up on 32 bits, others stay; the status word |
| ZebuCalls.Transactor.HostCalls | src/core/multisim_server.cpp:244-261 | the host runs the oldest call that has no status yet: an event of the system of NoStaleStatus |
| ZebuCalls.Transactor.Posedge | src/core/multisim_common.svh:57-96 | an edge of the macro and of the calling process is an event of the system of NoStaleStatus |
| ZebuCalls.Transactor.StoreStatus | src/core/multisim_common.svh:85-93 | storing the status of the oldest call, once it has waited, is an event of that system |
| ZebuNames.ZebuServerName | src/core/multisim_server.cpp:190-205 | the loop gives the non-NUL characters of the port in order, or refuses |
| ZebuNames.PackedNameRoundTrip | src/core/multisim_server.cpp:190-205 | a NUL-free name of at most 512 characters comes back, a longer one is always refused, whatever the padding bytes hold |
| ZebuNames.ZebuStartStep | src/core/multisim_server.cpp:217-232 | the index is that of the decoded name, known names keep theirs, a new name starts one server, the duplicate-name exit is not reached |
| ZebuNames.TableAgreesWithDecoding | src/core/multisim_server.cpp:207-232 | over every sequence of calls one server is started per distinct name, and lookups agree with decoding |
| ZebuNames.ZebuTable.MultisimServerStart | src/core/multisim_server.cpp:16-25 | a new name gets the next index and is remembered; too many servers and duplicates stop |
| ZebuNames.ZebuTable.ZebuServerStart | src/core/multisim_server.cpp:217-232 | the search by packed name, then by decoded name, then the start |
| FileNames.StepIsBijective | src/core/socket_server/info_file.h:11-13 | a hash step can be undone for each byte, and tells bytes apart for each hash |
| FileNames.NeighboursHashApart | src/core/socket_server/info_file.h:9-13 | names of equal length that differ in one byte have different hashes |
| FileNames.Fnv1aHashStr | src/core/socket_server/info_file.h:9-17 | the loop computes the 16 hexadecimal digits of the FNV-1a hash |
| FileNames.HashTextDenotes | src/core/socket_server/info_file.h:14-16 | the 16 digits, in lower case, denote the hash in base 16 |
| FileNames.PublishedHashes | src/core/socket_server/info_file.h:9-13 | the published FNV-1a values of the empty name and of "a" |
| FileNames.HashesApart | src/core/socket_server/info_file.h:14-16 | and different 16-digit texts |
| FileNames.NeighbourFilesApart | src/core/socket_server/info_file.h:21-28 | such channels share neither an info file nor a Unix socket |
| FileNames.FileNameFits | src/core/socket_server/unix_socket.h:15-21 | file names are within the limits and start with the name of the channel |
| FileNames.SocketPathFits | src/core/socket_server/unix_socket.h:26-46 | an address is refused if and only if its directory is long and cannot be opened; otherwise it fits and names the socket, in its directory or through the descriptor of that |
| InfoFile.ParsePrint | src/core/socket_server/server.cpp:59-63 | parsing what was printed gives ip, port and Unix path back |
| InfoFile.ParsePrintAnyPath | src/core/socket_server/client.cpp:130-136 | of a path with spaces or longer than its field the part before the first space comes back, at most 4095 characters; the path itself if and only if it has no space and fits |
| InfoFile.OtherLineIgnored | src/core/socket_server/client.cpp:130-136 | a third line with another key leaves the Unix path empty |
| InfoFile.ParseCut | src/core/socket_server/client.cpp:121-136 | what the parser makes of every prefix of a file: nothing before the first digit of the port, then the digits that are there, then the part of the Unix path that is there |
| InfoFile.CutPortIsWrong | src/core/socket_server/client.cpp:121-126 | a file cut inside the digits of the port is accepted with a smaller port |
| InfoFile.ParseCutShort | src/core/socket_server/client.cpp:121-126 | a file that stops before the first digit of the port is refused |
| InfoFile.ClientAddress.GetServerIpAndPort | src/core/socket_server/client.cpp:113-139 | the address fields after the call; a refused file leaves them alone |

## Left out

- System calls: `poll`, `accept`, `connect`, `bind`, `fcntl` and signals are answers and events that may come in any order; waiting in `poll` is the absence of a step.
- Connecting: the retry loops of a client, the port search, `getIp`, process exits and their messages.
- Time: wall-clock sleeps, and that a kernel or a peer eventually answers. Progress is stated per channel as what some further steps can do, not as what must happen.
- Several channels of one single-threaded process: two processes blocked in sends to each other depend on buffer sizes outside of the model.
- Simulation: clock gating by reset, glitches, races within a time step. An edge reads old registers and commits at its end; the start of a module is one step.
- AXI wrappers and the mirrored APB pair (client pull, server push): copies of the same channels without new logic.
- DPI handles: `svdpi` arrays are vectors; the unspecified contents of a buffer after a failed pull are an arbitrary value.
- Modules.ServerPull.Posedge: a call that takes cycles (ZeBu) reaches the host at the edge at which it comes back; what happens in between is in ZebuCalls.
- Apb.ExactlyOnceIff: a connection that has gone down does not come back within a run.
- RemoteMemory.SwServer.Loop: clients that connect during the loop are events of ServerRun, not of the method.
- MemoryClient.ClientIsServed: that a stream delivers in order bytes that were sent is what the kernel promises; it is a hypothesis on the bytes of both ends.
- MemoryClient.AssertWhileConnected: the kernel finishes a message that it has started for a client that stays.
- ZebuCalls.NoStaleStatus: transactors have servers of their own, as README.md:98 of the repository demands; the lock that serialises host calls is one event per call.
- ZebuNames.ZebuTable.MultisimServerStart: process exits are results; sockets and files of the server are not part of it.
- ZebuCalls.Transactor.Posedge: the object is a system with one transactor; several of them are in NoStaleStatus.
- FileNames.NeighbourFilesApart: two names that differ in more than one byte may have the same 64-bit hash.
- InfoFile.ParsePrint: ports are unbounded; `%d` on a number beyond 32 bits is not modelled.
- The exit command of the client program: on the server's side it is any message on the exit channel.
- Examples other than the read/write ones, traffic generators, logs, benchmarks and scripts.
