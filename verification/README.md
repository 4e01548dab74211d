# Verified models of the SMU firmware's engines

The firmware drives a source-measure unit: a display, an Ethernet and SCPI front end, an
AD7176 converter that measures, two LTC2758 converters that set outputs and limits, a
rotary encoder and a sample log. This project models the parts of it that are protocols
or carry arithmetic, in Dafny, and proves what they are for. `dafny verify dfyconfig.toml`
checks everything.

Every engine that changes state in place is a class whose methods are proved against a
value-level meaning (`View()`, a ghost field, or a function of the fields), and the
properties over whole runs are lemmas about that meaning. An environment that acts on its
own (the network stack, the Ethernet controller, the display coprocessor) is a party with
arbitrary steps, so the lemmas hold for every interleaving. Floating-point numbers are
reals.

| Modules | What they model |
|---|---|
| `TcpStream`, `Registry`, `TcpSystem`, `TcpConnection` | the life of one TCP connection on the receive side; the list of connections; both together for any number of connections; the objects, lwIP callbacks, server and client calls that implement them, with the event loop run inside the calls |
| `DisplayStream`, `DisplayFifo`, `DisplayFields`, `DisplayCommands`, `DisplaySession`, `DisplayListener` | the display command stream as a queue; the 4 KB ring with its 16-bit pointer and cached free room; fields, their bytes and how they are read back; the emitters and the fields of every command; whole sessions of commands; the coprocessor that understands them |
| `RxMachine`, `Descriptors`, `RxRing`, `TxRing` | frame reception as hardware, interrupt and polling; the receive and the transmit descriptor ring |
| `Crc32`, `MacFilter` | the table-driven CRC-32; the MAC hash filter with sticky collision bits, on 32-bit registers |
| `Division`, `Crc8`, `Ad7176` | division bit by bit; the coding theory of the CRC-8; checksummed register reads and writes |
| `Encoder` | the three quadrature state tables and the counter |
| `Logger` | the sample ring, its averaged backward window, its extremes |
| `ScpiFraming`, `ScpiHeader`, `ScpiInstrument` | message framing; keyword matching, hashing, registration and dispatch; the instrument's own set-up and what its commands collide with |
| `Ltc2758`, `Smu` | code quantisation, byte packing and double buffering; set points, limits and range switching |
| `Calibration` | piecewise-linear compensation |
| `Options`, `Modular`, `Reals` | an optional value, and arithmetic steps, used by several modules |

## What turned out false

The code is kept as it is. Each point names a lemma with a concrete case and, where there
is one, the lemma with the exact condition.

* **Acknowledged TCP bytes can be lost around `accept`.** With the errors the stack passes
  to connect callbacks, bytes are lost exactly when a connection closes with bytes while no
  client holds it, or a client lets go of the last reference with bytes unread
  (`LostExactly`, `StrandedExactly`). The first happens to a connection that closes while
  it waits on the list: its destructor erases the holder, so no later `accept` finds it
  (`ClosedBeforeAccept`, `GoneStaysGone`). The second happens in the firmware's own loop
  (src/Network2.cpp:316-317) when data and close arrive inside `accept`: the test
  `if (client)` is false although the bytes are saved, and the client goes out of scope
  (`LostAfterTest`, `FalseThoughSaved`). The connect callback's error branch would throw
  unread bytes away too (`FailedConnectStrands`, `ConservedExactly`), but the stack of this
  repository never passes it an error (lib/QNEthernet-master/src/lwip/tcp_in.c:903).
* **A wakeup can be lost.** The draining loop takes the null pointer it gets for a bad
  frame, or when no buffer is free, for an empty ring. Over every interleaving a full
  descriptor is left with neither flag nor interrupt exactly when the last drain ended on
  a drop with frames behind it and no frame was accepted that it was not called for
  (`StalledExactly`, `BadFrameLosesWakeup`; `DrainStalls` for one undisturbed drain);
  without drops nothing is lost (`NoLostWakeup`), and the next arrival raises the
  interrupt again.
* **A stray disallow can shut an allowed address out**, exactly when the two share a hash
  bit not marked as shared (`StrayDisallow`): leaving 224.0.0.121 without having joined it
  shuts out 224.0.0.251 (`StrayLeaveShutsOut`).
* **Half mode of the encoder, the mode the instrument uses, drifts on glitches.** One
  table entry answers a double step by changing state. The decoder agrees with a plain
  observer all the way exactly when that entry is never used, and repeated glitches at it
  move the count without bound (`AgreesUnlessSlips`, `HalfModeDrifts`). A decoder switched
  to half mode in one state of quarter mode never counts again (`HalfModeStuck`).
* **The alternate half mode counts the other way round**, because inverting one phase turns
  the sense of rotation (`RawPathExact`); its comment promises other detents only.
* **A text, number or button left of -4096 is drawn in the wrong place**, because the
  translation that shifts it is cut to 17 bits (`PlacedExactly`).
* **A request for display room can wait for ever**, exactly when the request and the
  unpublished bytes of the last word do not fit in the ring together (`EmitCompletes`), as
  4092 bytes after a single one (`WholeRingHangs`).
* **The instrument's hash sees only the last two keywords** of an SCPI command, because it
  sets the hash's magic number to 16, and the root counts as token 7, which is `SOURce`
  (`OnlyLastTwoCount`): `VOLT` alone sets the source, `MEAS:VOLT:ILIM` its limit, and
  `CURR:CURR` answers `SYST:ERR?` (`VoltAloneSets`, `MeasureSetsLimit`,
  `CurrentAnswersError`). The short form of `SYSTem` selects the earlier token
  `SYST` (`ClearExactly`, `SystemIsShadowed`). A lone `?` has a known code exactly when
  some token begins with no capital (`QuestionMarkIdentifies`), and is answered like
  `*IDN?` here (`QuestionMarkIsIdn`). A new token that begins an odd number of stored
  tokens is not stored (`TokenStored`, `PrefixTokenLost`). A number behind a keyword is
  ignored from the first token on that ends in `#`, also for tokens that allow none
  (`NumberLeaks`, `VoltThree`).
* **The converters are not initialised to ±10 V.** The span is sent without the shift the
  device needs and arrives as span 0, zero to five volts (`MeasureUnit.InitDac`).
* **The low range's limit stands on the high range's shunt for a moment** in every range
  switch in voltage mode, whichever way (`LowLimitOnHighShunt`).
* **A limit set as a voltage is read as microamperes** by the next switch in voltage mode,
  which is harmless exactly when a current limit has been set since or both numbers have
  one code (`VoltageLimitMisread`, `LowLimitCodes`, `HighLimitCodes`,
  `FiveVoltsReadAsAmps`).

Code and documentation disagree in a few more places, and the model follows the code:
`AD7176_ReadRegister` returns the byte count, not 0, on success; the polynomial 0x07 is
x^8 + x^2 + x + 1, while the comment beside it says x8 + x3 + x + 1; `GetCommandCode_`
returns 255, not 0, for an unknown keyword; the comment on the encoder's modes gives the
detents of `quarter` and `quarterInv` the other way round (`DetentsExactly`).

## Model

| member | source | states |
|---|---|---|
| `TcpStream.DeliverKeeps` | lib/QNEthernet-master/src/internal/ConnectionManager.cpp:26-189 | any one callback keeps the buffer bounded and the invariants of the holder, adds exactly the bytes it accepts to the unread ones, leaves the buffer as it was when it refuses a segment, and loses bytes exactly when it is a failed connect that finds some |
| `TcpStream.LoopKeeps` | lib/QNEthernet-master/src/internal/ConnectionManager.cpp:26-189 | the same for any sequence of callbacks, such as those run by one turn of the event loop |
| `TcpStream.ReadKeeps` | lib/QNEthernet-master/src/QNEthernetClient.cpp:388-466 | what a read hands out followed by what is unread after it is what was unread after the callbacks inside the read, for both forms of read |
| `TcpStream.OtherKeeps` | lib/QNEthernet-master/src/QNEthernetClient.cpp:84-94 | connected, the boolean test, available, peek, stop and destruction hand out nothing and change only what their callbacks change |
| `TcpStream.DoKeeps` | lib/QNEthernet-master/src/QNEthernetClient.cpp:84-492 | any client call conserves the bytes, in order, unless a losing callback runs in it |
| `TcpStream.DetachKeeps` | lib/QNEthernet-master/src/QNEthernetClient.cpp:84-108 | but for a stop and its own destruction, a client lets go of its connection only when it is closed and nothing is unread |
| `TcpStream.HearKeeps` | lib/QNEthernet-master/src/internal/ConnectionManager.cpp:26-189 | a callback keeps what holds of every life: the list has live holders only, a live one is on the list or with a client, and bytes are missing exactly when some were stranded; it ends the connection exactly when its arguments say so |
| `TcpStream.StepKeeps` | lib/QNEthernet-master/src/QNEthernetClient.cpp:84-492 | so does every step: a callback, an accept or available that finds the connection or not, a client call, and the end of the last client object |
| `TcpStream.RunKeeps` | lib/QNEthernet-master/src/internal/ConnectionManager.cpp:26-189 | over every run from such a state taken = handed out + unread holds at the end if and only if nothing was ever stranded: a gap never closes |
| `TcpStream.FifoRefinement` | lib/QNEthernet-master/src/internal/ConnectionManager.cpp:59-262 | from the birth of an incoming or outgoing connection, over every interleaving of callbacks, accepts and client calls, the client has received exactly the acknowledged bytes in order up to the unread ones if and only if nothing was stranded; otherwise bytes are missing for good; the buffer never outgrows its capacity |
| `TcpStream.ConservedExactly` | lib/QNEthernet-master/src/internal/ConnectionManager.cpp:26-189 | over every run whatever, what was handed out followed by what is unread is what was acknowledged if and only if no step loses bytes in one of three ways: a connection closes with bytes while no client holds it, a client stops or dies with bytes unread when the list does not refer to the connection, a failed connect finds unread bytes |
| `TcpStream.OrdinaryLoss` | lib/QNEthernet-master/src/internal/ConnectionManager.cpp:37-38 | with ERR_OK in connect callbacks, all the stack passes, the third way is never taken |
| `TcpStream.StrandedExactly` | lib/QNEthernet-master/src/QNEthernetClient.cpp:136-177 | so bytes are lost if and only if a connection closes with bytes while no client holds it, or a client lets go of the last reference with bytes unread |
| `TcpStream.InHandConserves` | lib/QNEthernet-master/src/QNEthernetClient.cpp:84-492 | once a client holds an open connection that is off the list, nothing is lost whatever happens if and only if no client lets go of it with bytes unread; with one that is on the list, as long as no client parts from it |
| `TcpStream.FoundInHand` | lib/QNEthernet-master/src/QNEthernetServer.cpp:39-55 | an accept or available that finds an open connection puts it in hand, even if it closes during the call |
| `TcpStream.WaitingStrands` | lib/QNEthernet-master/src/internal/ConnectionManager.cpp:105-147 | the callback that ends a connection still waiting on the list strands bytes if and only if there are some in the buffer or with the callback, and takes the connection off the list |
| `TcpStream.FalseThoughSaved` | lib/QNEthernet-master/src/QNEthernetClient.cpp:96-108 | the boolean test is true exactly of an open connection; it answers false without letting go exactly when bytes are saved, where connected answers true, and the client that then dies loses them |
| `TcpStream.ConnectedAnswers` | lib/QNEthernet-master/src/QNEthernetClient.cpp:84-108 | connected answers 1 if and only if the client has a connection that is open or has unread bytes, and keeps it then; otherwise it answers 0, lets go and changes nothing; the boolean test lets go of the same connections but is true of the open ones only |
| `TcpStream.LoopsWhenOpen` | lib/QNEthernet-master/src/QNEthernetClient.cpp:84-492 | the calls that let callbacks in are those of a client with an open connection, and connected also while bytes are saved; a stop and a destruction always let go, no other call lets go of an open connection |
| `TcpStream.LoopOpens` | lib/QNEthernet-master/src/internal/ConnectionManager.cpp:26-189 | after callbacks a live connection is open if and only if it was open or any came, and none of them ended it |
| `TcpStream.BornOpen` | lib/QNEthernet-master/src/internal/ConnectionManager.cpp:192-262 | an incoming connection is open from birth, an outgoing one from its first callback, until a callback ends it; both are on the list, and only an outgoing one has a client |
| `TcpStream.RunExtends` | lib/QNEthernet-master/src/QNEthernetClient.cpp:388-466 | bytes once taken or handed out are never taken back |
| `TcpStream.Answers` | lib/QNEthernet-master/src/QNEthernetClient.cpp:361-492 | what available, peek and both reads answer, in terms of the unread bytes, including the connection that closes inside the call; the branch that answers 0 without a state is never reached |
| `TcpStream.NothingAnswers` | lib/QNEthernet-master/src/QNEthernetClient.cpp:361-492 | without an open connection and unread bytes every receiving call answers -1 or 0, lets go, and changes nothing |
| `TcpStream.ChainedBytes` | lib/QNEthernet-master/src/internal/ConnectionManager.cpp:121-129 | the bytes of one chain behind another are those of the first and then those of the second |
| `TcpStream.PeekPredicts` | lib/QNEthernet-master/src/QNEthernetClient.cpp:468-492 | a byte shown by peek is the next byte handed out, whatever happens in between |
| `TcpStream.DrainAfterClose` | lib/QNEthernet-master/src/QNEthernetClient.cpp:388-405 | bytes saved at close are all handed out by single reads while connected answers true, and the read after the last lets go of the connection |
| `TcpStream.FailedConnectStrands` | lib/QNEthernet-master/src/internal/ConnectionManager.cpp:37-38 | the error branch of the connect callback, which the stack never takes, throws unread bytes away if and only if there are any; the error callback never does |
| `Registry.EraseOnce` | lib/QNEthernet-master/src/internal/ConnectionManager.cpp:226-234 | erasing takes out exactly the one element and keeps the list free of duplicates |
| `Registry.ApplyKeeps` | lib/QNEthernet-master/src/internal/ConnectionManager.cpp:192-235 | opening and closing a connection keep the bookkeeping invariant and never bring a known connection back onto the list |
| `Registry.LoopKeeps` | lib/QNEthernet-master/src/internal/ConnectionManager.cpp:192-235 | the same for every sequence of openings and closings |
| `Registry.FindFirst` | lib/QNEthernet-master/src/internal/ConnectionManager.cpp:321-332 | the search returns the oldest live connection of the port, and nothing only when there is none |
| `Registry.AcceptKeeps` | lib/QNEthernet-master/src/QNEthernetServer.cpp:39-47 | accept hands out the connection it found before its event loop, even if that closes it, exactly once, and leaves no trace of it on the list |
| `Registry.GoneStaysGone` | lib/QNEthernet-master/src/internal/ConnectionManager.cpp:226-234 | a connection that closed while it waited is never handed out by any later accept |
| `Registry.RunKeeps` | lib/QNEthernet-master/src/internal/ConnectionManager.cpp:192-364 | every run of openings, closings and accepts keeps the invariant, and what was handed out stays handed out |
| `Registry.BookkeepingAlways` | lib/QNEthernet-master/src/internal/ConnectionManager.cpp:192-364 | from the empty manager: each connection is handed out at most once, the list has no duplicates and no entry without a state, and every live connection is either waiting or handed out |
| `TcpSystem.LoopHears` | lib/QNEthernet-master/src/internal/ConnectionManager.cpp:26-189 | in a loop over the events of all connections each one hears its own callbacks, in order, and no others |
| `TcpSystem.DoKeeps` | lib/QNEthernet-master/src/QNEthernetServer.cpp:39-55 | every event, connect, accept, available and client call keeps registry and lives in agreement: on the list exactly the waiting ones, live exactly the open ones |
| `TcpSystem.EveryStreamConserved` | lib/QNEthernet-master/src/internal/ConnectionManager.cpp:26-364 | over every run with any number of connections each client has got exactly the acknowledged bytes of its connection, in order, up to the unread ones, if and only if none were stranded; each connection is handed out at most once and none that waits is dead |
| `TcpSystem.AcceptFollows` | lib/QNEthernet-master/src/QNEthernetServer.cpp:39-47 | the accept of the joint model does to the list what the accept of the classes does |
| `TcpSystem.LendsWaiting` | lib/QNEthernet-master/src/internal/ConnectionManager.cpp:335-348 | what available lends is a connection of the port on the list that has bytes waiting, and nothing only if none of them has any |
| `TcpSystem.StepLife` | lib/QNEthernet-master/src/QNEthernetServer.cpp:39-55 | one step of all connections is, for each of them, its own call, or its callbacks among those that the step lets happen |
| `TcpSystem.EveryLifeIsARun` | lib/QNEthernet-master/src/internal/ConnectionManager.cpp:26-364 | whatever happens to the others, the life of each connection is the run that can be read off the steps |
| `TcpSystem.LostExactly` | lib/QNEthernet-master/src/internal/ConnectionManager.cpp:26-364 | over every run of any number of connections, the acknowledged bytes of a connection are those got and those unread if and only if its life, computed from the steps, has no losing step; with ERR_OK in connect callbacks only closing with bytes unheld and letting go with bytes unread are losing |
| `TcpSystem.ClosedBeforeAccept` | lib/QNEthernet-master/src/internal/ConnectionManager.cpp:226-234 | a concrete run: incoming, one byte, close, accept; the byte was acknowledged, accept finds nothing and nobody gets it |
| `TcpSystem.LostAfterTest` | src/Network2.cpp:316-323 | the firmware's own loop: a byte and the close arrive while accept runs; accept hands the connection out with the byte saved, the boolean test is false, the client dies, the byte is lost |
| `TcpConnection.ConnectionManager.DropState` | lib/QNEthernet-master/src/internal/ConnectionState.h:29-38 | dropping the state takes the callback argument away and erases the connection from the list |
| `TcpConnection.ConnectionManager.Free` | lib/QNEthernet-master/src/internal/ConnectionState.h:29-38 | a holder that nothing refers to any more goes with its state and what was saved |
| `TcpConnection.ConnectionManager.MaybeCopyRemaining` | lib/QNEthernet-master/src/internal/ConnectionManager.cpp:59-70 | the saved bytes become exactly the unread part of the buffer |
| `TcpConnection.ConnectionManager.ConnectedFunc` | lib/QNEthernet-master/src/internal/ConnectionManager.cpp:26-48 | the holder ends as the value-level callback says, and the list as a close on error |
| `TcpConnection.ConnectionManager.ErrFunc` | lib/QNEthernet-master/src/internal/ConnectionManager.cpp:73-96 | the same for the error callback |
| `TcpConnection.ConnectionManager.CloseErr` | lib/QNEthernet-master/src/internal/ConnectionManager.cpp:83-95 | on a real error the unread bytes are saved, the state is gone, and the list is closed |
| `TcpConnection.ConnectionManager.SaveChain` | lib/QNEthernet-master/src/internal/ConnectionManager.cpp:121-129 | the loop over a chain appends all its payload bytes |
| `TcpConnection.ConnectionManager.Store` | lib/QNEthernet-master/src/internal/ConnectionManager.cpp:155-183 | a chain is stored if and only if it fits beside the unread bytes; compaction does not change what is unread; a refused chain changes nothing; the buffer never outgrows its capacity |
| `TcpConnection.ConnectionManager.CloseRecv` | lib/QNEthernet-master/src/internal/ConnectionManager.cpp:114-147 | a null chain or an error moves all unread bytes and the bytes of the chain, in this order, to the saved ones |
| `TcpConnection.ConnectionManager.SaveBuffer` | lib/QNEthernet-master/src/internal/ConnectionManager.cpp:118-130 | unread bytes and the bytes of the chain, in this order, become the saved ones |
| `TcpConnection.ConnectionManager.TakeRecv` | lib/QNEthernet-master/src/internal/ConnectionManager.cpp:152-188 | a chain is appended or refused as the value-level callback says |
| `TcpConnection.ConnectionManager.RecvHolder` | lib/QNEthernet-master/src/internal/ConnectionManager.cpp:105-188 | both branches together, with the refusal code exactly when the chain is refused |
| `TcpConnection.ConnectionManager.RecvFunc` | lib/QNEthernet-master/src/internal/ConnectionManager.cpp:99-189 | the receive callback, with its argument check |
| `TcpConnection.ConnectionManager.AddConnection` | lib/QNEthernet-master/src/internal/ConnectionManager.cpp:223-235 | the connection is pushed on the list and its destructor hooked |
| `TcpConnection.ConnectionManager.AcceptFunc` | lib/QNEthernet-master/src/internal/ConnectionManager.cpp:192-221 | an incoming connection becomes a connected holder with an empty buffer at the end of the list, and an error none |
| `TcpConnection.ConnectionManager.Connect` | lib/QNEthernet-master/src/internal/ConnectionManager.cpp:237-262 | an outgoing connection starts unconnected with an empty buffer |
| `TcpConnection.ConnectionManager.Loop` | lib/QNEthernet-master/src/internal/ConnectionManager.cpp:26-235 | a turn of the event loop does to every holder what its own callbacks do and to the list what the openings and closings do |
| `TcpConnection.ConnectionManager.FindConnected` | lib/QNEthernet-master/src/internal/ConnectionManager.cpp:321-332 | the array search finds what the value-level search finds |
| `TcpConnection.ConnectionManager.FindAvailable` | lib/QNEthernet-master/src/internal/ConnectionManager.cpp:335-348 | the search finds the first live connection of the port with bytes waiting, as the value-level search does |
| `TcpConnection.ConnectionManager.Remove` | lib/QNEthernet-master/src/internal/ConnectionManager.cpp:350-364 | the connection is erased and unhooked, and whether it was there is reported |
| `TcpConnection.ConnectionManager.Accept` | lib/QNEthernet-master/src/QNEthernetServer.cpp:39-47 | find, loop and remove together are the value-level accept |
| `TcpConnection.ConnectionManager.Available` | lib/QNEthernet-master/src/QNEthernetServer.cpp:49-55 | find and loop together: what is found is lent and stays where the loop leaves it |
| `TcpConnection.EthernetClient.Read1` | lib/QNEthernet-master/src/QNEthernetClient.cpp:388-417 | the single read is the value-level one on buffer and saved bytes alike |
| `TcpConnection.EthernetClient.ReadN` | lib/QNEthernet-master/src/QNEthernetClient.cpp:419-466 | the block read is the value-level one, and copies the bytes it hands out |
| `TcpConnection.EthernetClient.Peek` | lib/QNEthernet-master/src/QNEthernetClient.cpp:468-492 | the value-level peek |
| `TcpConnection.EthernetClient.Available` | lib/QNEthernet-master/src/QNEthernetClient.cpp:361-386 | the value-level count |
| `TcpConnection.EthernetClient.IsConnected` | lib/QNEthernet-master/src/QNEthernetClient.cpp:84-94 | the value-level answer: true if and only if the connection is open or has saved bytes; otherwise the client lets go |
| `TcpConnection.EthernetClient.IsTrue` | lib/QNEthernet-master/src/QNEthernetClient.cpp:96-108 | the value-level boolean test, true of an open connection only: the loop runs only on that; a closed and empty one is let go |
| `TcpConnection.EthernetClient.Destroy` | lib/QNEthernet-master/src/QNEthernetClient.cpp:40-43 | destruction calls nothing; with the last reference the holder is destroyed, unless the list refers to it |
| `TcpConnection.EthernetClient.Stop` | lib/QNEthernet-master/src/QNEthernetClient.cpp:136-177 | the value-level stop: the loop inside runs only on an open connection, and the client lets go |
| `DisplayStream.DoKeeps` | src/transports/wiring.h:100-168 | every emit, flush, finish, stop and coprocessor read keeps the cached room below the true one and at most 4092 bytes unread |
| `DisplayStream.PublishKeeps` | src/transports/wiring.h:377-379 | publishing whole words changes nothing the coprocessor has read |
| `DisplayStream.DrainKeeps` | src/transports/wiring.h:154-160 | the coprocessor moves on by whole words, up to what is published |
| `DisplayStream.CutKeeps` | src/transports/wiring.h:161-164 | cutting to a word drops only bytes past the last word |
| `DisplayStream.EmitOrder` | src/transports/wiring.h:100-148 | an emit adds its bytes to the stream if it goes through and none otherwise, and drops nothing |
| `DisplayStream.StepOrder` | src/transports/wiring.h:100-168 | any operation extends what the coprocessor has read; no byte is dropped if the stream ends on a word whenever it is cut, and a cut elsewhere drops the bytes past the word |
| `DisplayStream.RunLogs` | src/transports/wiring.h:100-168 | over a run the log grows by what the operations emit, in order, byte by byte or in larger pieces |
| `DisplayStream.RunOrder` | src/transports/wiring.h:100-168 | if every finish and stop comes when whole words have been emitted no byte is ever dropped, and if a run goes through only then |
| `DisplayStream.StreamAlways` | src/transports/wiring.h:100-168 | for every schedule of emits of any lengths, cuts and coprocessor reads: at most 4092 bytes are unread, the cached room never exceeds the true one, and the coprocessor has read a prefix of exactly what was emitted when every cut comes on a word; a run that goes through keeps all bytes if and only if it does |
| `DisplayStream.FinishDrains` | src/transports/wiring.h:161-168 | finish returns only with everything read up to the last whole word, which is everything exactly when the stream is aligned |
| `DisplayStream.PollEnds` | src/transports/wiring.h:375-385 | a wait can end only if the request fits beside the partial word, and then ends as soon as the coprocessor catches up |
| `DisplayStream.EmitCompletes` | src/transports/wiring.h:100-148 | a request completes under some schedule if and only if it fits in the cached room or beside the partial word in 4092 bytes |
| `DisplayStream.WholeRingHangs` | src/transports/wiring.h:375-385 | a concrete request: 4092 bytes asked for after a single byte never complete, under any schedule |
| `DisplayFifo.RingDistance` | src/transports/wiring.h:381-382 | distances below the ring size survive the reduction modulo the ring |
| `DisplayFifo.HoldsSlice` | src/transports/wiring.h:154-160 | what the coprocessor reads from the ring is the matching part of the stream |
| `DisplayFifo.HoldsPut` | src/transports/wiring.h:121-128 | a byte written at the masked pointer overwrites nothing unread |
| `DisplayFifo.MaskedWord` | src/transports/wiring.h:377-379 | masking the 16-bit pointer gives the ring position and the word position of the stream |
| `DisplayFifo.GDTransport.PublishWords` | src/transports/wiring.h:377-379 | the first lines of getfree publish the whole words |
| `DisplayFifo.GDTransport.Fullness` | src/transports/wiring.h:381-382 | the difference of the two pointers modulo the ring is the number of unread bytes |
| `DisplayFifo.GDTransport.PollOnce` | src/transports/wiring.h:380-383 | one poll sets the cached room to the true one of that moment |
| `DisplayFifo.GDTransport.GetFree` | src/transports/wiring.h:375-385 | the polling loop is the value-level wait and ends with the stream open at the write pointer |
| `DisplayFifo.GDTransport.Write` | src/transports/wiring.h:100-148 | cmd32, cmdbyte and cmd_n put their bytes into the ring in order, waiting for room as the value-level emit does; the 16-bit pointer does not overflow |
| `DisplayFifo.GDTransport.CutWords` | src/transports/wiring.h:162-164 | the write pointer goes back to the word and is published |
| `DisplayFifo.GDTransport.Finish` | src/transports/wiring.h:161-168 | finish is the value-level one |
| `DisplayFifo.GDTransport.Stop` | src/transports/wiring.h:332-338 | stop cuts to the word and publishes, without waiting |
| `DisplayFifo.GDTransport.Stream` | src/transports/wiring.h:340-344 | the write transaction starts again at the write pointer |
| `DisplayFifo.GDTransport.Advance` | src/transports/wiring.h:154-160 | the coprocessor reads out of the ring exactly the next bytes of the stream |
| `DisplayFields.WordRead` | src/GD2.cpp:795-811 | the four bytes of a 32-bit field, read least significant first, are its value |
| `DisplayFields.HalfRead` | src/GD2.cpp:786-793 | the two bytes of a 16-bit field likewise |
| `DisplayFields.PaddingFills` | src/GD2.cpp:781-784 | the padding is zeros up to the next word |
| `DisplayFields.FieldsRead` | src/GD2.cpp:786-825 | a reader that knows only the kinds of the fields gets their values back from their bytes, whatever comes behind, if no string holds a zero |
| `DisplayCommands.EncodeLength` | src/GD2.cpp:786-825 | the length of a sequence of fields is whole words and two bytes for each 16-bit field |
| `DisplayCommands.EncodeWhole` | src/GD2.cpp:786-825 | it is whole words if and only if the number of 16-bit fields is even |
| `DisplayCommands.EveryCommandWhole` | src/GD2.cpp:1078-1431 | every cmd_*, from the literal list of the fields it writes, has an even number of 16-bit fields and so emits whole words, whatever its arguments |
| `DisplayCommands.WidgetFields` | src/GD2.cpp:1102-1359 | by an independent table of opcodes, argument kinds and argument places, the fields of every widget command are read as that command with its arguments |
| `DisplayCommands.LabelledFields` | src/GD2.cpp:1186-1194 | so are those of keys and toggle, if the text holds no zero |
| `DisplayCommands.OtherFields` | src/GD2.cpp:1078-1431 | so are those of all other commands but the register write, which is a memory write with its data |
| `DisplayCommands.PlacedSays` | src/GD2.cpp:1027-1041 | button, number and text are read as a translation word and the command with what is left of its x |
| `DisplayCommands.CopiesWhole` | src/GD2.cpp:829-843 | so do copy and copyram |
| `DisplayCommands.EmitAppends` | src/transports/wiring.h:100-148 | an emit appends its bytes, or leaves the producer waiting with nothing added |
| `DisplayCommands.GDClass.CH` | src/GD2.cpp:786-789 | two bytes that, read low byte first, are the number |
| `DisplayCommands.GDClass.CI` | src/GD2.cpp:795-797 | four bytes that, read low byte first, are the number |
| `DisplayCommands.GDClass.Align` | src/GD2.cpp:781-784 | zeros up to the next word, although the counter is a byte and wraps |
| `DisplayCommands.GDClass.Cs` | src/GD2.cpp:815-825 | the characters, the terminating zero, and zeros up to the next word, for strings of any length |
| `DisplayCommands.GDClass.Copy` | src/GD2.cpp:829-837 | the bytes and their padding |
| `DisplayCommands.GDClass.CopyRam` | src/GD2.cpp:839-843 | the same in one piece, with the count cut to 16 bits |
| `DisplayCommands.GDClass.SendFields` | src/GD2.cpp:786-825 | the fields of a list in order, each as its bytes |
| `DisplayCommands.GDClass.Cmd` | src/GD2.cpp:1078-1431 | a command emits the bytes of its fields, in the order of its body, and they are whole words |
| `DisplaySession.SessionWhole` | src/GD2.cpp:1078-1431 | a session of commands, copies, plain words, flushes and cuts, emitted field by field and byte by byte, emits the bytes it means, and every cut in it comes on a word |
| `DisplaySession.ReadsAside` | src/transports/wiring.h:154-160 | reads by the coprocessor between any two emits change nothing of this |
| `DisplaySession.SessionRead` | src/transports/wiring.h:100-168 | however the coprocessor reads in between, it has read a prefix of exactly the bytes the session means, no byte is dropped and at most 4092 are unread; a session that goes through has put all of them into the stream |
| `DisplayListener.WordHeard` | src/GD2.cpp:795-811 | a word of the display list is heard as that word, an opcode word as the beginning of a command |
| `DisplayListener.SaysHeard` | src/GD2.cpp:1078-1431 | the bytes of a command, whatever comes behind, are heard as the command with its arguments |
| `DisplayListener.StoreHeard` | src/GD2.cpp:1224-1228 | a memory write and the data behind it, padded, are heard as the data stored at the address |
| `DisplayListener.RegisterHeard` | src/GD2.cpp:1229-1234 | a register write is heard as its four bytes, low byte first, stored at the address |
| `DisplayListener.SayHeard` | src/GD2.cpp:1078-1431 | so every command is heard as what it means |
| `DisplayListener.SessionHeard` | src/GD2.cpp:1078-1431 | the bytes of any session of commands, display list words, memory writes with their data, flushes and cuts are understood as exactly what the session means, in order |
| `DisplayListener.HearMore` | src/transports/wiring.h:154-160 | an action heard is heard the same when more bytes have come |
| `DisplayListener.SessionUnderstood` | src/transports/wiring.h:100-168 | however the coprocessor reads while the session is written, it has understood the first part of what the session means, and all of it when it has read everything |
| `DisplayListener.PlacedExactly` | src/GD2.cpp:1027-1041 | translation and x together are the x asked for if and only if that is at least -4096 |
| `RxMachine.NextKeeps` | lib/QNEthernet-master/src/lwip_t41.c:350-396 | every step of hardware, interrupt and driver keeps accepted = finished + held + in the ring, and the event and the flag say exactly that frames were accepted since the last interrupt, and interrupts since the last drain |
| `RxMachine.RunKeeps` | lib/QNEthernet-master/src/lwip_t41.c:458-485 | the same over every interleaving |
| `RxMachine.InOrderOnce` | lib/QNEthernet-master/src/lwip_t41.c:350-396 | after any interleaving every accepted frame is in the ring, being copied, or finished exactly once in arrival order, and no bad frame was delivered |
| `RxMachine.BadExactly` | lib/QNEthernet-master/src/lwip_t41.c:350-355 | a frame is bad if and only if the hardware set one of the five error bits |
| `RxMachine.StalledExactly` | lib/QNEthernet-master/src/lwip_t41.c:480-485 | after any interleaving a full descriptor is left without interrupt or flag if and only if the last drain ended on a dropped frame, the ring is not empty, and no frame has been accepted that the drain was not called for; then the next arrival raises the interrupt |
| `RxMachine.NoLostWakeup` | lib/QNEthernet-master/src/lwip_t41.c:480-485 | if no frame is bad and buffers do not run out there is no lost wakeup and every finished frame was delivered |
| `RxMachine.DrainStalls` | lib/QNEthernet-master/src/lwip_t41.c:646-656 | a drain ends stalled if and only if a frame that is not the last in the ring is dropped |
| `RxMachine.BadFrameLosesWakeup` | lib/QNEthernet-master/src/lwip_t41.c:634-656 | a concrete run of two frames in which the second stays in its descriptor unnoticed |
| `RxRing.LayoutFull` | lib/QNEthernet-master/src/lwip_t41.c:458-478 | the hardware descriptor is empty exactly when the ring is not full |
| `RxRing.FilledNumber` | lib/QNEthernet-master/src/lwip_t41.c:42-56 | a received status word is the wrap flag of the descriptor and the flags of the frame, empty never among them, and it is bad exactly when the frame is |
| `RxRing.LayoutFill` | lib/QNEthernet-master/src/lwip_t41.c:246-252 | a received frame extends the cyclic run and leaves the wrap flags alone |
| `RxRing.LayoutScan` | lib/QNEthernet-master/src/lwip_t41.c:458-478 | moving the pointer by one takes the oldest frame off the run |
| `RxRing.LayoutInput` | lib/QNEthernet-master/src/lwip_t41.c:350-396 | emptying the descriptor keeps its wrap flag and the rest of the run |
| `RxRing.RxRing.Receive` | lib/QNEthernet-master/src/lwip_t41.c:246-252 | the hardware fills the next descriptor if it is empty and raises the event |
| `RxRing.RxRing.Isr` | lib/QNEthernet-master/src/lwip_t41.c:480-485 | the interrupt turns the event into the flag |
| `RxRing.RxRing.FindFilled` | lib/QNEthernet-master/src/lwip_t41.c:458-471 | the scan ends within one lap, with the first filled descriptor or with none in the whole ring |
| `RxRing.RxRing.FindOldest` | lib/QNEthernet-master/src/lwip_t41.c:458-471 | what the scan finds is the oldest frame, where the pointer stands, and none only in an empty ring |
| `RxRing.RxRing.RxbdNext` | lib/QNEthernet-master/src/lwip_t41.c:458-478 | the filled descriptor found is the oldest one, and the pointer moves on by one |
| `RxRing.RxRing.LowLevelInput` | lib/QNEthernet-master/src/lwip_t41.c:350-396 | a good frame is copied out if there is a buffer, a bad one dropped, and the descriptor recycled with its wrap flag in either case |
| `RxRing.RxRing.RxNext` | lib/QNEthernet-master/src/lwip_t41.c:634-637 | one frame or null, the latter both for an empty ring and a dropped frame |
| `RxRing.RxRing.TakeFlag` | lib/QNEthernet-master/src/lwip_t41.c:649-652 | the flag is cleared before the ring is looked at |
| `RxRing.RxRing.ProcInput` | lib/QNEthernet-master/src/lwip_t41.c:646-656 | the stack receives exactly the payloads the value-level drain delivers |
| `TxRing.QueuePut` | lib/QNEthernet-master/src/lwip_t41.c:399-428 | filling the descriptor at the pointer with a ready whole frame appends to the run of such descriptors |
| `TxRing.QueueTake` | lib/QNEthernet-master/src/lwip_t41.c:399-428 | releasing the oldest descriptor takes it off the run |
| `TxRing.SendBits` | lib/QNEthernet-master/src/lwip_t41.c:413-416 | the status word of a queued frame is the wrap flag with 0x8c00: ready, last buffer of its frame, checksum to be appended |
| `TxRing.TxRing.GetBufdesc` | lib/QNEthernet-master/src/lwip_t41.c:399-407 | the wait ends with a descriptor the hardware has released, and sends nothing twice meanwhile |
| `TxRing.TxRing.UpdateBufdesc` | lib/QNEthernet-master/src/lwip_t41.c:410-428 | the frame is queued behind all others, its status word is the wrap flag with 0x8c00 and no other descriptor changes; only the last descriptor carries the wrap flag |
| `TxRing.TxRing.Transmit` | lib/QNEthernet-master/src/lwip_t41.c:409-418 | frames are sent as whole frames with checksum, in the order they were queued, each once |
| `TxRing.TxRing.OutputFrame` | lib/QNEthernet-master/src/lwip_t41.c:671-687 | frames outside 60 to 1518 bytes are refused, others queued exactly once |
| `Crc32.TableIsDivision` | lib/QNEthernet-master/src/lwip_t41.c:696-740 | every entry of the lookup table is what the commented generator computes |
| `Crc32.GeneratorDivides` | lib/QNEthernet-master/src/lwip_t41.c:743-757 | one table step is eight steps of bit-at-a-time division |
| `Crc32.Step` | lib/QNEthernet-master/src/lwip_t41.c:756 | the loop body divides by one byte |
| `Crc32.Crc32` | lib/QNEthernet-master/src/lwip_t41.c:753-759 | for every byte string and start value the loop computes the remainder of section 3.2.9 of IEEE 802.3, without the final complement |
| `MacFilter.HashOf` | lib/QNEthernet-master/src/lwip_t41.c:784 | the hash is the top six bits of the checksum of the address |
| `MacFilter.NextKeeps` | lib/QNEthernet-master/src/lwip_t41.c:767-809 | allowing and disallowing keep: allowed addresses have their bit, shared bits are marked, and unmarked bits belong to someone |
| `MacFilter.RunKeeps` | lib/QNEthernet-master/src/lwip_t41.c:767-809 | the same over every run in which only allowed addresses are disallowed |
| `MacFilter.NoFalseNegatives` | lib/QNEthernet-master/src/lwip_t41.c:761-809 | over every such run no allowed address is shut out, and two allowed addresses with one bit have marked it |
| `MacFilter.StrayDisallow` | lib/QNEthernet-master/src/lwip_t41.c:793-807 | disallowing an address that is not allowed keeps everyone in if and only if its bit is marked or no allowed address shares it |
| `MacFilter.StrayLeaveShutsOut` | lib/QNEthernet-master/src/lwip_t41.c:797-807 | two concrete group addresses with one hash bit: disallowing the one never allowed shuts out the other |
| `MacFilter.UpdatedBits` | lib/QNEthernet-master/src/lwip_t41.c:785-797 | on 32-bit words, for each bit: or-ing sets the one bit of the mask, the collision word gets it exactly when it was set before, and clearing with the complement and the collision word clears it unless it is marked; no other bit changes |
| `MacFilter.SwitchedBits` | lib/QNEthernet-master/src/lwip_t41.c:768-808 | of four registers and four collision words the right one is changed, in one bit, and no other bit of any of them |
| `MacFilter.SwitchedView` | lib/QNEthernet-master/src/lwip_t41.c:768-808 | so the eight words together do what the value-level filter does |
| `MacFilter.Enet.Value` | lib/QNEthernet-master/src/lwip_t41.c:785 | one shifted by the low five bits of the hash has that one bit |
| `MacFilter.Enet.Update` | lib/QNEthernet-master/src/lwip_t41.c:787-796 | the branches with their or, and, complement |
| `MacFilter.Enet.SetSlot` | lib/QNEthernet-master/src/lwip_t41.c:768-808 | the register and the collision word of the hash are updated and no other |
| `MacFilter.Enet.SetMacAddressAllowed` | lib/QNEthernet-master/src/lwip_t41.c:767-809 | the registers do what the value-level filter does; an address allowed has its bit in the register of its kind and hash |
| `Division.DivideAdditive` | src/AD7176.cpp:311-334 | if one step is additive, so is the remainder of strings of any length |
| `Crc8.CrcLinear` | src/AD7176.cpp:311-334 | the checksum of a damaged frame is the sum of the checksums of frame and damage |
| `Crc8.Residue` | src/AD7176.cpp:311-334 | a message followed by one byte has checksum zero if and only if the byte is its checksum |
| `Crc8.ByteClears` | src/AD7176.cpp:318-331 | eight bits clear the register if and only if they are its own |
| `Crc8.FeedZeros` | src/AD7176.cpp:311-334 | zero bits never clear a register that is not clear: the step is invertible |
| `Crc8.Window` | src/AD7176.cpp:311-334 | damage confined to a window is seen exactly when the window alone is |
| `Crc8.BurstDetected` | src/AD7176.cpp:311-334 | every burst of at most eight bits, anywhere in a frame of any length, is seen |
| `Crc8.ParityKept` | src/AD7176.cpp:311-334 | the parity of the register is the parity of the message |
| `Crc8.OddDetected` | src/AD7176.cpp:311-334 | every odd number of wrong bits is seen |
| `Crc8.Period` | src/AD7176.cpp:318-331 | the register after a single one returns every 127 steps, and can be cleared by another one only at the end of a round |
| `Crc8.DoubleDetected` | src/AD7176.cpp:311-334 | two wrong bits go unseen if and only if their distance is a multiple of 127 |
| `Crc8.FewDetected` | src/AD7176.cpp:311-334 | up to three wrong bits in at most 127 bits are seen |
| `Ad7176.ComputeCRC8` | src/AD7176.cpp:311-334 | the nested loops with shift and exclusive or compute the division by the polynomial over all bits of the buffer |
| `Ad7176.ComputeXOR8` | src/AD7176.cpp:344-355 | the loop computes the exclusive or of all bytes |
| `Ad7176.FrameCrcExample` | src/AD7176.cpp:311-334 | the example of the data sheet: the checksum of 0x654321 is 0x86 |
| `Ad7176.ReadCommandNumber` | src/AD7176.cpp:100 | the command byte of a read is the address with bit 6 set |
| `Ad7176.LaidDigits` | src/AD7176.cpp:174-179 | each byte written is the digit of the value to the base 256 for its place, the first byte the highest |
| `Ad7176.RebuiltLaid` | src/AD7176.cpp:144-179 | what n bytes keep of a 32-bit value, with the shifts of both loops |
| `Ad7176.RegisterRoundTrip` | src/AD7176.cpp:144-179 | a value survives a write and a read of n bytes if and only if n is at least four or the value is neither negative nor too large |
| `Ad7176.BuildValue` | src/AD7176.cpp:144-151 | the read loop rebuilds the value from its big-endian bytes, in 32 bits |
| `Ad7176.FillDown` | src/AD7176.cpp:174-179 | the write loop lays the bytes out from the last one down |
| `Ad7176.Check` | src/AD7176.cpp:116-135 | the check byte is zero exactly when the reply, with the command byte put back in front, is accepted in the mode set |
| `Ad7176.Ad7176.ReadRegister` | src/AD7176.cpp:90-154 | the bytes sent are 0x40 plus the address and zeros; an accepted reply gives its byte count, the value and the status byte; any other gives -1 and leaves the register record as it was |
| `Ad7176.Ad7176.WriteRegister` | src/AD7176.cpp:163-193 | command, big-endian value and, in both checksum modes, the CRC |
| `Ad7176.CrcFrame` | src/AD7176.cpp:181-185 | a frame that ends in a checksum byte has residue zero if and only if the byte is right |
| `Ad7176.ReplyChecksum` | src/AD7176.cpp:116-139 | a reply is accepted if and only if its last byte is the checksum of the rest and the command, in either mode |
| `Ad7176.ReadBack` | src/AD7176.cpp:90-154 | the answer of a device to the command byte it was sent, with the status byte for command 0x44 and the checksum over that byte and what it sends, has the length read, is accepted in every mode, and brings the bytes of the register and the status as sent |
| `Ad7176.WriteObeyed` | src/AD7176.cpp:163-193 | a device that takes command bytes below 0x40 for writes and checks the CRC stores exactly the bytes of the value, in every mode |
| `Ad7176.WrittenReadBack` | src/AD7176.cpp:90-193 | a value written to a register and then read from it comes back, in every mode, if and only if the register can hold it |
| `Ad7176.DamagePasses` | src/AD7176.cpp:116-139 | a damaged reply is accepted if and only if the damage alone has checksum zero |
| `Ad7176.DamageRejected` | src/AD7176.cpp:135-139 | a reply hit by a burst of at most eight bits, an odd number of wrong bits, or up to three wrong bits is refused |
| `Ad7176.XorMissesSwap` | src/AD7176.cpp:344-355 | exchanging two neighbouring bytes is never seen by the other checksum |
| `Encoder.EntryExact` | lib/EncoderTool-master/src/EncoderBase.h:282-315 | every table entry moves count and state together by exactly the step the phases show, and double steps change nothing, with one exception in half mode |
| `Encoder.NextExact` | lib/EncoderTool-master/src/EncoderBase.h:212-225 | one update keeps decoder and observer together, except in that entry |
| `Encoder.Exact` | lib/EncoderTool-master/src/EncoderBase.h:212-225 | over any inputs, glitches included, the scaled net count plus the offset of the state is the position, as long as no input meets that entry |
| `Encoder.AgreesUnlessSlips` | lib/EncoderTool-master/src/EncoderBase.h:282-315 | the decoder agrees with the observer all the way if and only if no input meets that entry, and always in quarter and full mode |
| `Encoder.PathExact` | lib/EncoderTool-master/src/EncoderBase.h:212-225 | every path of repeats and single steps, however bouncy, is counted without error in every mode |
| `Encoder.InvertBits` | lib/EncoderTool-master/src/EncoderBase.h:220 | each bit of an inverted sample is the exclusive or of the bits; 0 leaves it alone, 3 turns it by half a period, and twice is none |
| `Encoder.InvertPhase` | lib/EncoderTool-master/src/EncoderBase.h:145-172 | with the inversion of its mode a decoder sees the shaft as it is, half a period on, or, in the alternate half mode, the other way round |
| `Encoder.RawPathExact` | lib/EncoderTool-master/src/EncoderBase.h:205-225 | from begin on, the raw samples of any bouncing path, through the inversion of the mode, are counted without error: forward in every mode but the alternate half mode, backward in that |
| `Encoder.RawDirection` | lib/EncoderTool-master/src/EncoderBase.h:205-270 | so seven quarter periods one way or the other show in the sign of the count |
| `Encoder.DetentsExactly` | lib/EncoderTool-master/src/EncoderBase.h:8-14 | the raw phases at which the count has no remainder: 1/1 in quarter mode, 0/0 in its inverse, 0/0 and 1/1 in half mode, the other two in its alternate |
| `Encoder.HalfModeDrifts` | lib/EncoderTool-master/src/EncoderBase.h:296-306 | n glitches before the detent count -n while the position is back where it began |
| `Encoder.HalfModeStuck` | lib/EncoderTool-master/src/EncoderBase.h:305 | in half mode the state left over from quarter mode is never left and nothing is counted |
| `Encoder.StaysWithin` | lib/EncoderTool-master/src/EncoderBase.h:227-270 | a counter started within its limits stays within them |
| `Encoder.PeriodicValue` | lib/EncoderTool-master/src/EncoderBase.h:227-270 | a periodic counter is its start plus the ticks modulo the range, and reports every tick |
| `Encoder.UnlimitedValue` | lib/EncoderTool-master/src/EncoderBase.h:188-203 | without limits the counter is the count in 32 bits, wrapping round |
| `Encoder.BoundedValue` | lib/EncoderTool-master/src/EncoderBase.h:227-270 | a bounded counter is the saturated sum, and what it reports adds up to how far it moved |
| `Encoder.ShaftToValue` | lib/EncoderTool-master/src/EncoderBase.h:206-270 | shaft to value: any bouncing path leaves a periodic counter at its start plus the counts the path is worth |
| `Encoder.Encoder.SetCountMode` | lib/EncoderTool-master/src/EncoderBase.h:145-172 | each mode selects its table, and the inversion that RawPathExact is about |
| `Encoder.Encoder.SetLimits` | lib/EncoderTool-master/src/EncoderBase.h:188-203 | limits not in order mean the whole range of the type, periodic |
| `Encoder.Encoder.Begin` | lib/EncoderTool-master/src/EncoderBase.h:205-209 | the state starts at the inverted sample, as RawPathExact starts |
| `Encoder.Encoder.Update` | lib/EncoderTool-master/src/EncoderBase.h:211-280 | one inverted sample moves state, counter, change flag and returned delta as the tables and the counter say |
| `Logger.HoldsNext` | src/Logger.cpp:149-179 | one more sample: the ring holds the newest samples at their distance behind the address, across the wrap |
| `Logger.WalkAt` | src/Logger.cpp:419-435 | where the n-th backward read is, with and without wrap |
| `Logger.ReadIs` | src/Logger.cpp:419-452 | the n-th read is the n-th newest sample |
| `Logger.SumBackIsSum` | src/Logger.cpp:415-453 | the sum of a block read backwards is the sum of that block of the history |
| `Logger.WindowIsHistory` | src/Logger.cpp:352-470 | slot i of a window scrolled back is the mean of the i-th newest block of that time with the time of its oldest sample, and a slot whose block is not all there is marked empty, as long as the window does not reach further back than the ring |
| `Logger.MarkedEmpty` | src/Logger.cpp:424-431 | a block that is not all there has the value -999999.99 |
| `Logger.WindowRepeats` | src/Logger.cpp:420-424 | further back a full ring shows the newest samples again |
| `Logger.ExtremesFromEleventh` | src/Logger.cpp:181-190 | the maximum is undefined up to ten samples; from the eleventh on both extremes are those of all samples from the eleventh on |
| `Logger.Logger.Clear` | src/Logger.cpp:49-61 | the history is empty |
| `Logger.Logger.Store` | src/Logger.cpp:151-179 | address, full flag, count and ring follow the history: the count is the smaller of its length and the size |
| `Logger.Logger.RegisterValue` | src/Logger.cpp:149-191 | the history grows by the sample, and the extremes with it |
| `Logger.Logger.ReadBlock` | src/Logger.cpp:417-451 | the inner loop sums one block and reports whether the beginning was overrun |
| `Logger.Logger.FillSlot` | src/Logger.cpp:415-470 | the body of the outer loop fills one slot with its block of the window and changes no other, the empty mark being sticky |
| `Logger.Logger.GetLastSamples` | src/Logger.cpp:352-470 | the array becomes the window and nothing beyond it changes |
| `ScpiFraming.CallIsPrefix` | lib/scpi/src/Vrekrer_scpi_parser.cpp:395-432 | a call reports the first event of what waits, leaves the rest as it was, and answers nothing only when all is read |
| `ScpiFraming.LateCall` | lib/scpi/src/Vrekrer_scpi_parser.cpp:424-432 | a call times out if and only if it is late and some characters but no event are waiting; it drops those characters and nothing else |
| `ScpiFraming.DoKeeps` | lib/scpi/src/Vrekrer_scpi_parser.cpp:395-435 | an arrival or a call that does not time out keeps what has been and will be said |
| `ScpiFraming.ChunkingIrrelevant` | lib/scpi/src/Vrekrer_scpi_parser.cpp:395-435 | without timeouts, however arrivals and calls interleave, what was reported and what waits are the frames of the whole input |
| `ScpiFraming.CallsDrain` | lib/scpi/src/Vrekrer_scpi_parser.cpp:395-435 | calls made for as long as something waits end with everything reported |
| `ScpiFraming.TakeExplains` | lib/scpi/src/Vrekrer_scpi_parser.cpp:397-418 | a character ends a message, fills the buffer, or is kept; a reported message is the buffer before a terminator that occurs nowhere earlier |
| `ScpiFraming.InputAccounted` | lib/scpi/src/Vrekrer_scpi_parser.cpp:395-435 | the whole input is cut into messages with their terminators, full buffers of 64 characters without one, and a rest: no character is lost or used twice, and the terminator is always at the very end |
| `ScpiFraming.MessageDelivered` | lib/scpi/src/Vrekrer_scpi_parser.cpp:412-417 | a message without NUL and terminator that fits with its terminator is delivered as it was sent |
| `ScpiFraming.SessionDelivered` | lib/scpi/src/Vrekrer_scpi_parser.cpp:395-435 | any list of such messages, in any chunks and with calls at any times, arrives complete and with nothing added |
| `ScpiFraming.ScpiParser.Accept` | lib/scpi/src/Vrekrer_scpi_parser.cpp:397-418 | the buffer, the overflow and the cut terminator, in place |
| `ScpiFraming.ScpiParser.GetMessage` | lib/scpi/src/Vrekrer_scpi_parser.cpp:395-435 | the reading loop, the timeout and the length are the value-level call |
| `ScpiHeader.MatchIsSpelling` | lib/scpi/src/Vrekrer_scpi_parser.cpp:196-219 | the comparison by length is: short or long form, in any letter case, with any number behind it for a token that ends in # |
| `ScpiHeader.Characters` | lib/scpi/src/Vrekrer_scpi_parser.cpp:196-216 | the character classes by their ASCII codes |
| `ScpiHeader.LeftIs` | lib/scpi/src/Vrekrer_scpi_parser.cpp:200-207 | the number at the end of a keyword is off for every token after the first that ends in # |
| `ScpiHeader.NumberLeaks` | lib/scpi/src/Vrekrer_scpi_parser.cpp:200-207 | a keyword with a number behind it, which spells nothing as it stands, selects the token of the keyword without if and only if that token or any stored before it ends in # |
| `ScpiHeader.VoltThree` | lib/scpi/src/Vrekrer_scpi_parser.cpp:200-207 | a concrete table: VOLT3 selects VOLTage when CHANnel# is stored before it, and nothing when it is not |
| `ScpiHeader.ClearExactly` | lib/scpi/src/Vrekrer_scpi_parser.cpp:195-229 | in a table without tokens that end in #, every spelling of a token selects it if and only if no earlier token shares a non-empty form with it |
| `ScpiHeader.SystemIsShadowed` | src/Poormanssmu.cpp:1448-1451 | in the instrument's own table the short form of SYSTem selects SYST |
| `ScpiHeader.SpellingIrrelevant` | lib/scpi/src/Vrekrer_scpi_parser.cpp:173-236 | for keywords whose tokens share no form with an earlier one, any mix of short and long forms and cases gets one code, the modular Horner hash of the token numbers and then the query step, as section 6.2 of SCPI-1999 volume 1 asks of headers |
| `ScpiHeader.UnknownKeyword` | lib/scpi/src/Vrekrer_scpi_parser.cpp:195-229 | a command has no code of its own if and only if one of its keywords is spelled by no token, as it is left when the token is tried, and then its code is 255 |
| `ScpiHeader.KeywordsOfText` | lib/scpi/src/Vrekrer_scpi_parser.cpp:66-82 | leading spaces, a leading colon and parameters make no difference to the keywords, of which those beyond the sixth are ignored |
| `ScpiHeader.SpelledCommandRuns` | lib/scpi/src/Vrekrer_scpi_parser.cpp:338-368 | any spelling of a command line runs the handler registered first for its code |
| `ScpiHeader.OnlyLastTwoCount` | src/Poormanssmu.cpp:1440-1441 | with magic number 16, two known commands of any length have one code if and only if the last two tokens of their paths, the root counting as token 7, are the same, or, of a query and a command that is none, are taken into each other by the inverse of the query step |
| `ScpiHeader.KnownAsUnknown` | lib/scpi/src/Vrekrer_scpi_parser.cpp:229-236 | a known command has the code for unknown if and only if it is a query that ends on the first token twice |
| `ScpiHeader.QueryExactly` | lib/scpi/src/Vrekrer_scpi_parser.cpp:232-235 | the query step is undone by adding one and multiplying by 173, modulo 256 |
| `ScpiHeader.QuestionMarkIdentifies` | lib/scpi/src/Vrekrer_scpi_parser.cpp:187-219 | a lone question mark has a known code if and only if some token begins with no capital, and then it is the query code of the first of those; otherwise it is 255 |
| `ScpiHeader.QuestionMarkIsIdn` | lib/scpi/src/Vrekrer_scpi_parser.cpp:187-219 | with *IDN stored first that is the code of the identification query |
| `ScpiHeader.TokenStored` | lib/scpi/src/Vrekrer_scpi_parser.cpp:145-161 | a token is stored, at the end, if and only if an even number of stored tokens begin with it and there are fewer than fifteen |
| `ScpiHeader.CodeSurvives` | lib/scpi/src/Vrekrer_scpi_parser.cpp:283-291 | tokens added for later commands do not change the code of an earlier one |
| `ScpiHeader.TreeBaseIsPrefix` | lib/scpi/src/Vrekrer_scpi_parser.cpp:173-179 | a command registered under a tree base has the code of the whole path from the root, except that a base with hash zero counts as none |
| `ScpiHeader.EmptyBaseIsRoot` | lib/scpi/src/Vrekrer_scpi_parser.cpp:243-253 | after an empty base commands are registered from the root |
| `ScpiHeader.PrefixTokenLost` | lib/scpi/src/Vrekrer_scpi_parser.cpp:150-153 | a concrete token that is not stored and so never matched |
| `ScpiHeader.CommandsSplit` | lib/scpi/src/Vrekrer_scpi_parser.cpp:343-366 | a line is cut at its semicolons |
| `ScpiHeader.ScpiCommands.TokenMatches` | lib/scpi/src/Vrekrer_scpi_parser.cpp:196-219 | the suffix rule and the two comparison loops decide spelling, and leave the keyword trimmed |
| `ScpiHeader.ScpiCommands.TrimFor` | lib/scpi/src/Vrekrer_scpi_parser.cpp:203-207 | the suffix rule: the digits at the end of the keyword and the # of the token go, if the token ends in # and the keyword does not |
| `ScpiHeader.ScpiCommands.Compare` | lib/scpi/src/Vrekrer_scpi_parser.cpp:210-219 | the comparison against the short length, then the long one |
| `ScpiHeader.ScpiCommands.FindToken` | lib/scpi/src/Vrekrer_scpi_parser.cpp:195-229 | the search stops at the first token spelled by what is left of the keyword |
| `ScpiHeader.ScpiCommands.HashKeyword` | lib/scpi/src/Vrekrer_scpi_parser.cpp:183-229 | one turn of the loop: the keyword without its question mark selects a token and moves the code on by it, or none |
| `ScpiHeader.ScpiCommands.GetCommandCode` | lib/scpi/src/Vrekrer_scpi_parser.cpp:173-236 | the hashing loop computes the code, with the start value of the tree, the query step and 255 for unknown |
| `ScpiHeader.ScpiCommands.FindHandler` | lib/scpi/src/Vrekrer_scpi_parser.cpp:352-357 | the first handler registered for a code |
| `ScpiHeader.ScpiCommands.AddOne` | lib/scpi/src/Vrekrer_scpi_parser.cpp:145-161 | the toggling search and the store at the end |
| `ScpiHeader.ScpiCommands.SetCommandTreeBase` | lib/scpi/src/Vrekrer_scpi_parser.cpp:243-253 | the tokens are added and the tree code is their code from the root, as one step of the set-up on values |
| `ScpiHeader.ScpiCommands.RegisterCommand` | lib/scpi/src/Vrekrer_scpi_parser.cpp:283-291 | the tokens are added and the code is appended, as one step of the set-up on values |
| `ScpiHeader.ScpiCommands.Execute` | lib/scpi/src/Vrekrer_scpi_parser.cpp:338-368 | each command of the line runs the first handler with its code, or the error handler |
| `ScpiInstrument.TableSelf` | src/Poormanssmu.cpp:1447-1468 | in any stored part of the table every token selects itself |
| `ScpiInstrument.NewIsNew` | src/Poormanssmu.cpp:1447-1468 | every token of the table is stored when it first occurs, SYS included, which begins two stored ones |
| `ScpiInstrument.EveryStep` | src/Poormanssmu.cpp:1447-1468 | each of the fifteen calls of the set-up leaves the tokens, codes and tree base listed for it |
| `ScpiInstrument.SetupLeaves` | src/Poormanssmu.cpp:1447-1468 | the set-up makes of an empty parser the table of fifteen tokens and the twelve codes |
| `ScpiInstrument.CodesDistinct` | src/Poormanssmu.cpp:1447-1468 | the twelve registered codes differ from each other |
| `ScpiInstrument.VoltAloneSets` | src/Poormanssmu.cpp:1458 | VOLT alone, which is no command, runs the handler of SOUR:VOLT |
| `ScpiInstrument.CurrAloneSets` | src/Poormanssmu.cpp:1459 | CURR alone runs the handler of :CURRent under SOURce |
| `ScpiInstrument.SetgAloneSets` | src/Poormanssmu.cpp:1462 | SETG alone runs the handler of :SETGain |
| `ScpiInstrument.MeasureSetsLimit` | src/Poormanssmu.cpp:1461 | MEAS:VOLT:ILIM, which is no command, runs the handler of SOUR:VOLT:ILIM |
| `ScpiInstrument.CurrentAnswersError` | src/Poormanssmu.cpp:1448 | CURR:CURR, which is no query, runs the handler of the query SYST:ERR? |
| `Ltc2758.NearestCode` | src/LTC2758.cpp:112-132 | no code is nearer to the voltage than the one chosen, in range or clamped |
| `Ltc2758.HalfLsb` | src/LTC2758.cpp:112-132 | in range it is at most half a code away |
| `Ltc2758.CodesRise` | src/LTC2758.cpp:112-132 | a higher voltage never gets a lower code |
| `Ltc2758.CodeRoundTrip` | src/LTC2758.cpp:102-132 | every code is the code of its own voltage |
| `Ltc2758.CodeArrives` | src/LTC2758.cpp:82-85 | the 18 bits of a code arrive in the bytes sent |
| `Ltc2758.SpanArrives` | src/LTC2758.cpp:82-85 | a span shifted by two arrives in the span bits |
| `Ltc2758.CommitShows` | src/LTC2758.h:98-103 | writing the span shows nothing; the code with its update shows both |
| `Ltc2758.CommitBytes` | src/LTC2758.h:93-103 | the command bytes of a commit are 0x20 and 0x70, and the frame that initialises both channels is 2E 00 00 C0 |
| `Ltc2758.SentApart` | src/LTC2758.h:93-103 | span, code and update sent apart show nothing before the update; address 2 is the second channel |
| `Ltc2758.ShownIsCommitted` | src/LTC2758.h:16-19 | after any number of frames of any run of commits the output is the last setting committed as a whole |
| `Ltc2758.Device.Write` | src/LTC2758.cpp:74-98 | the four bytes of a command |
| `Smu.VoltageReproduced` | src/SMU_HAL_717x.cpp:592-621 | a corrected voltage of at most ten volts comes out inverted within half a code of the span chosen, and with dynamic range the span is the finest that holds it with the margin of the source |
| `Smu.CurrentReproduced` | src/SMU_HAL_717x.cpp:711-732 | the same for a source current, with its two spans |
| `Smu.LimitReproduced` | src/SMU_HAL_717x.cpp:774-821 | a limit that is not negative comes out within half a code, or at ten volts if the converter cannot give more |
| `Smu.VoltageMeaning` | src/SMU_HAL_717x.cpp:537-582 | each voltage gain acts on the voltages of its own sign and size, after table and offset, and on no others |
| `Smu.CurrentMeaning` | src/SMU_HAL_717x.cpp:645-697 | the high range takes 4.905 volts for an ampere and the low one a volt for a milliampere, before the gain for the sign |
| `Smu.VoltageAsAsked` | src/SMU_HAL_717x.cpp:533-621 | with no table, offset or gain, every voltage up to ten volts either way comes out inverted as it was asked for in microvolts, within half a code |
| `Smu.VoltageWithTable` | src/SMU_HAL_717x.cpp:539-542 | a table moves it by no more than the worst calibration error |
| `Smu.CurrentAsAsked` | src/SMU_HAL_717x.cpp:629-732 | with no table, offset or gain, every current up to two amperes or ten milliamperes comes out at the volts of its range, within half a code |
| `Smu.LimitAsAsked` | src/SMU_HAL_717x.cpp:774-821 | a current limit comes out at 5.05 volts for an ampere or a volt for a milliampere, within half a code, up to ten volts |
| `Smu.VoltageLimitAsAsked` | src/SMU_HAL_717x.cpp:738-772 | a voltage limit comes out within half a code, cut to zero to ten volts |
| `Smu.SwitchedInStep` | src/SMU_HAL_717x.cpp:323-375 | every range switch in voltage mode leaves the limit converter at the stored limit for the new range |
| `Smu.LimitFollowsRange` | src/SMU_HAL_717x.cpp:924-971 | over every run of voltage mode, by hand and automatic switching alike, the limit converter shows the stored limit for the present range |
| `Smu.SwitchedSource` | src/SMU_HAL_717x.cpp:323-375 | every range switch in current mode leaves the source converter at the stored set point for the new range, and the limit alone |
| `Smu.SourceFollowsRange` | src/SMU_HAL_717x.cpp:319-375 | over every run of current mode, by hand and automatic switching alike, the source shows the last current set for the present range |
| `Smu.SourceStays` | src/SMU_HAL_717x.cpp:924-971 | over every run of voltage mode the source shows the last voltage set, whatever the range does |
| `Smu.LowLimitOnHighShunt` | src/SMU_HAL_717x.cpp:334-368 | in the middle of a switch, either way, the limit of the low range stands on the shunt of the high range |
| `Smu.VoltageLimitMisread` | src/SMU_HAL_717x.cpp:738-777 | over every run, a switch in voltage mode shows the number of the last limit of either kind read as microamperes; that is the last current limit if and only if no voltage limit was set since, or both numbers are the same as far as the converter can tell |
| `Smu.LowLimitCodes` | src/SMU_HAL_717x.cpp:786-800 | in the low range two numbers have one code if and only if they are the same when cut to 0 to 10000 microamperes |
| `Smu.HighLimitCodes` | src/SMU_HAL_717x.cpp:800-817 | in the high range they have one code if and only if they round to one value, scaled by shunt, switch and gain and cut to the range of the converter; numbers a code or more apart do not |
| `Smu.FiveVoltsReadAsAmps` | src/SMU_HAL_717x.cpp:738-777 | a concrete case: 100 mA, then 5 V, then a switch to the high range puts the limit converter at its top code instead of 13238 |
| `Smu.SwitchesAreCrossings` | src/SMU_HAL_717x.cpp:924-971 | over any sequence of readings the range is switched exactly as often as the range asked for by the readings outside the band changes, and is the last one asked for |
| `Smu.SteadyReadings` | src/SMU_HAL_717x.cpp:924-971 | readings whose magnitudes stay within the hysteresis of each other switch at most once, wherever the threshold is |
| `Smu.MeasureUnit.InitDac` | src/SMU_HAL_717x.cpp:517-523 | channel A shows span 0 on both converters, the source at zero volts where the bipolar span would give minus ten, the limit at half a volt; channel B has span 0 waiting in its buffer and shows what it did before |
| `Smu.MeasureUnit.SetCommitVoltageSource` | src/SMU_HAL_717x.cpp:533-626 | set point, span choice, stored range and the two frames; with no table, offset or gain the converter then shows the microvolts asked for, inverted, within half a code |
| `Smu.MeasureUnit.ChooseSpan` | src/SMU_HAL_717x.cpp:597-615 | the span and its bounds by the magnitude of the voltage |
| `Smu.MeasureUnit.SetCommitCurrentSource` | src/SMU_HAL_717x.cpp:629-735 | set point, span choice and the two frames |
| `Smu.MeasureUnit.SetCommitVoltageLimit` | src/SMU_HAL_717x.cpp:738-772 | the limit is stored and sent at zero to ten volts |
| `Smu.MeasureUnit.SetCommitCurrentLimit` | src/SMU_HAL_717x.cpp:774-821 | the limit is stored and sent for the present range, clamped in the low one |
| `Smu.MeasureUnit.SetCurrentRange` | src/SMU_HAL_717x.cpp:319-375 | range, relay and resending in the order of each direction |
| `Smu.MeasureUnit.HandleAutoCurrentRange` | src/SMU_HAL_717x.cpp:924-971 | the automatic step with its hysteresis |
| `Calibration.DacNonlinearCompensation` | src/Calibration.cpp:691-725 | the search loop finds the segment and interpolates its correction |
| `Calibration.AdcNonlinearCompensation` | src/Calibration.cpp:642-687 | the same, switched off as a whole without calibrated values |
| `Calibration.Interpolates` | src/Calibration.cpp:652-684 | inside the table the map is the polyline through the points (aim, 2 aim - measured) |
| `Calibration.AtKnot` | src/Calibration.cpp:654 | at the calibration points, the first one apart, it has their values |
| `Calibration.IdentityOutside` | src/Calibration.cpp:652-686 | outside the table, and at its first point, nothing is changed |
| `Calibration.NeverFar` | src/Calibration.cpp:659-682 | no reading is moved by more than the worst calibration error |
| `Calibration.MonotoneExactlyWhenKnotsRise` | src/Calibration.cpp:652-684 | the map keeps the order of readings inside the table if and only if the values at the points rise |
| `Calibration.NoJumpInside` | src/Calibration.cpp:652-684 | inside the table the map is continuous, with the steepest segment as its Lipschitz constant |
| `Calibration.JumpAtFirst` | src/Calibration.cpp:654 | at the first point there is a jump as large as the first calibration error |

## Left out

- Rendering, menus, widgets, buttons, gestures and the numeric dial: user interface with
  little to prove.
- Pin toggling, delays, link set-up, `SerialRAM` and EEPROM layout: hardware plumbing. Each
  device is the register file, ring or bytes its peer sees.
- The network stack: its callbacks come in any order, except that none comes for a holder
  whose callback argument has been taken away. Nothing is claimed about the TCP window,
  which the refusal path also moves. Sending, DNS, DHCP and mDNS are not modelled.
- Client objects that share one connection count as one client; its stop and its
  destruction are those of the last object.
- The scan of `rxbd_next` counts as one step with respect to the hardware.
- The display chip is assumed to wrap streamed addresses inside its 4 KB ring, and the
  coprocessor-exception value of its read pointer (0xfff) is not modelled. Its translation
  is taken to be signed, in sixteenths of a pixel. What it draws is not modelled, nor the
  data behind the commands that inflate, decode an image or play a video; fields in which
  it returns results are skipped by the reader.
- The measure unit has the full board fitted, which is what the constant in the source
  says; readings and the switching threshold are inputs.
- Parameters after an SCPI header are not split. For a keyword that is all digits, or
  empty, the source looks at the character before it; the model stops at its start.
- ClearExactly: for tables in which neither the token nor an earlier one ends in `#`;
  what those do to a keyword is in `LeftIs` and `NumberLeaks`.
- Error handlers, user callbacks and the encoder's button are reported as results of the
  calls instead of being called back.
- The range kept for the log's graph axis, its scrolling by the encoder, and the averaged
  filters, statistics, fan and temperature code: small computations without interplay.
- The FAT reader is not used by this firmware; the digitizer's capture copy has inclusive
  bounds that leave no contract to state; calibration sequencing is driven by timing.
- A register whose frame exceeds the eight-byte buffers, a twenty-first SCPI command and a
  scroll address outside the log's ring overrun memory in the source; preconditions exclude
  them. The lemmas about the encoder's counter start within its limits, which `setValue`
  does not check.
- Rounding of floating-point arithmetic.
