# A verified model of the php-wasm runtime's sockets, processes, databases and charts

This project models, in Dafny, the parts of the repository whose correctness depends on
more than one function: the POSIX socket layer built on WebSockets, the code that hands
environments, command output and headers across the C/JavaScript border, the connection
table and the cdb cursor of the dba extension, and the two-pass arithmetic of the area
and bar charts. It proves what every run of them does.

`dafny verify dfyconfig.toml` checks the whole project.

## How it is laid out

| file | what it models |
|---|---|
| `SocketOptions.dfy`, `SocketHistory.dfy`, `SocketLayer.dfy` | setsockopt, getsockopt, the options resent when a WebSocket opens; the state machine over all descriptors, sockets and WebSockets, what its histories amount to, and the calls that update it in place |
| `Connect.dfy` | the blocking `wasm_connect` |
| `PollSocket.dfy` | `wasm_poll_socket`: what it answers at once, and the race between events and a timeout |
| `Receive.dfy`, `DescriptorFlags.dfy` | recvmsg with the datagram patch, `wasm_recvfrom`, and the O_NONBLOCK bit |
| `PollLoop.dfy` | `__wrap_poll` and `__wrap_select` |
| `EnvBlock.dfy` | the environment block of proc_open, written in C and read in JavaScript |
| `ExecLines.dfy` | `wasm_php_exec` and its growing line buffer |
| `JsonHeaders.dfy` | the JSON text of the response headers, and a JSON reader |
| `DbaTable.dfy`, `DbaCalls.dfy` | dba's connection table: admission, stream ownership; the calls themselves |
| `Cdb.dfy` | walking a constant database |
| `ChartRange.dfy`, `AreaStack.dfy` | stacked and stream area charts: the range scan and the layers |
| `CatmullRom.dfy`, `AreaCurve.dfy`, `AreaOutline.dfy` | stepped and smooth areas: the curves, and where they are drawn |
| `BarSlots.dfy`, `BarStack.dfy` | bar charts |

Where the source updates objects or buffers in place, the model has a class or an array
with a method for each operation, and each method is proved equal to an operation of a
pure state machine; the theorems are then about all runs of that machine. What is outside
the repository (the event loop, SOCKFS, the stream layer, the driver, the clock) appears
as parameters: an outcome, an event or a reading that may be anything the contract of the
outside world allows.

Every lemma carries `{:induction false}`: the inductions are written out.

## Where the code differs from its documentation or from what one would expect

Each of these is a lemma, most of them with the exact condition under which the expected
property does hold.

- A connect refused because its WebSocket is already closing leaves the peer listed and
  `connecting` set; only a connect that waited cleans up (`Connect.CleanUpNeedsTheWait`).
- An 'error' event after a timed-out connect turns the stored ETIMEDOUT into ECONNREFUSED
  (`Connect.ErrorLaterOn`).
- A failed connect removes its peer even when `close()` throws. The WebSocket then stays
  alive but no later option reaches its proxy (`SocketOptions.PromiseExactly`).
- `Date.now()` counts whole milliseconds, so a read with SO_RCVTIMEO can give up almost a
  millisecond early (`Receive.FullTimeoutGuaranteed`, `Receive.GivesUpEarly`).
- A read poll waits although recvmsg would report an error when the error is pending and no
  peer WebSocket is closing (`Receive.DatagramPollAgrees`).
- The mode comment of dba.c allows "rt"; the code refuses every open whose second character
  is "t" (`DbaTable.BareTestLockNeverOpens`).
- A dba connection opened with "-" hides later locking connections on its path from the
  admission check, and a path that is not the real one escapes it
  (`DbaTable.FirstMatchDecides`, `DbaTable.MaskingBreaksDiscipline`,
  `DbaTable.AliasedOpens`, `DbaTable.CanonicalPathNeeded`).
- exec() loses output when it ends, without end-of-file noticed yet, in a line of two or
  more chunks that an earlier line had already grown the buffer for
  (`ExecLines.HandlesTheLines`, `ExecLines.LossyExample`).
- proc_open with an empty environment array passes no environment at all, and a variable
  named `__proto__` is dropped (`EnvBlock.RoundTrip`, `EnvBlock.SurvivesExactly`).
- A response header with a byte below 0x20, such as a tab, makes the whole headers file
  unreadable as JSON (`JsonHeaders.EmitReadsBack`).
- The comment in dba_cdb.c calls the first word of a cdb file the total length of the file;
  it is the end of the records (`Cdb.WalkFollowsRecords`). nextkey after firstkey found no
  record takes the header for a record (`Cdb.EmptyDatabase`).
- A stream chart without a single number, under an overlay that does not reach zero, draws
  its layers outside the range (`AreaStack.AllGapStream`).
- The comments of the range scan say that it covers the layers. A smooth layer is drawn up
  to an eighth of the plot's height outside, and can turn inside out
  (`AreaCurve.SmoothInsideExactly`, `AreaOutline.SmoothLeavesThePlot`).
- In slots narrower than two pixels bars fall into the next slot
  (`BarSlots.BarsInsideSlot`).
- poll can miss a descriptor that becomes ready between its last look and its reading of the
  clock (`PollLoop.ReadyIsNeverMissed`, `PollLoop.SlowCheckMisses`).

## Model

| member | source | states |
|---|---|---|
| SocketOptions.StepKeeps | compile/php/phpwasm-emscripten-library.js:84-104 | every system call, every clean-up of a failed connect and every move of the outside world keeps: a CONNECTING WebSocket has its send-on-open handler and was told nothing, and every WebSocket still listed, while live, is kept its promise |
| SocketOptions.ProxyAgreement | compile/php/phpwasm-emscripten-library.js:52-104 | after any interleaving of setsockopt, connect, failed connect, open, shutdown and close steps, each WebSocket that was never orphaned still has its handler or its proxy-side options equal the stored ones; while OPEN the proxy never holds a stale value |
| SocketOptions.PromiseExactly | compile/php/phpwasm-emscripten-library.js:1540-1556 | for a live WebSocket of an open descriptor that promise lasts through every continuation if and only if no failed connect took the WebSocket off its socket after close() had thrown |
| SocketHistory.ToldFromOpenOn | compile/php/phpwasm-emscripten-library.js:89-104 | from the 'open' event on, while OPEN and unless orphaned, the proxy has been told exactly what the history stored last for the socket, option by option |
| SocketHistory.OptionsArrive | compile/php/phpwasm-emscripten-library.js:89-104 | after any run, a connection that is made and opens is told every option set before |
| SocketHistory.SetReachesOpen | compile/php/phpwasm-emscripten-library.js:1319-1330 | setsockopt tells every OPEN WebSocket of the socket at once |
| SocketHistory.NotToldWithoutSetter | compile/php/phpwasm-emscripten-library.js:52-83 | a WebSocket whose class cannot set options is never told any |
| SocketHistory.ConnectMakes | compile/php/phpwasm-emscripten-library.js:474-481 | connect makes one new WebSocket, CONNECTING, listed, with its handler, and touches no other socket's |
| SocketHistory.ShutdownCloses | compile/php/phpwasm-emscripten-library.js:725-743 | shutdown closes and removes the peer and changes nothing else |
| SocketHistory.GetRefinesHistory | compile/php/phpwasm-emscripten-library.js:1340-1391 | getsockopt answers the last value stored in the whole history for the socket object now holding the descriptor, 0 if there is none; for SO_ERROR the error of the last failure of one of its WebSockets unless read since, for SO_TYPE the type it was opened with |
| SocketHistory.SetAnswers | compile/php/phpwasm-emscripten-library.js:1274-1331 | after any history setsockopt succeeds exactly on a socket, for a known option and a usable argument; otherwise EBADF, ENOTSOCK, ENOPROTOOPT or EINVAL, as the case may be |
| SocketHistory.GetFailures | compile/php/phpwasm-emscripten-library.js:1340-1391 | when getsockopt fails after any history, and with which error |
| SocketHistory.TimeoutFields | compile/php/phpwasm-emscripten-library.js:34-45 | the receive and the send timeout of a socket object are the last SO_RCVTIMEO and SO_SNDTIMEO set on it |
| SocketHistory.FlagRoundTrip | compile/php/phpwasm-emscripten-library.js:1308-1330 | a flag reads back as 1 if any bit passed was set and as 0 otherwise |
| SocketHistory.ReusedDescriptorReadsZero | compile/php/phpwasm-emscripten-library.js:34-45 | a socket opened on a reused number reads 0 for every option, whatever earlier holders set |
| SocketOptions.TimevalRoundTrip | compile/php/phpwasm-emscripten-library.js:637-662 | a timeout reads back at least as long as requested, under a millisecond longer, in normal form, and setting what was read changes nothing |
| SocketLayer.Library.SetSockOpt | compile/php/phpwasm-emscripten-library.js:1274-1331 | the errno for every argument, and the whole new state: the table entry and every OPEN WebSocket's proxy |
| SocketLayer.Library.GetSockOpt | compile/php/phpwasm-emscripten-library.js:1340-1391 | the answer for every option, level and buffer length; SO_ERROR is cleared even if the buffer is too short, nothing else changes |
| SocketLayer.Library.SendAll | compile/php/phpwasm-emscripten-library.js:91-97 | in whatever order the options are sent, the proxy ends with all of them over what it had |
| SocketLayer.Library.SendSocketOptionsOnOpen | compile/php/phpwasm-emscripten-library.js:89-104 | sends now on OPEN, registers one handler on CONNECTING, leaves the others, for exactly the socket's own WebSockets |
| SocketLayer.Library.HandleOpen | compile/php/phpwasm-emscripten-library.js:89-104 | an 'open' event runs every registered handler once with the options stored at that moment |
| SocketLayer.Library.ConnectSocket | compile/php/phpwasm-emscripten-library.js:474-481 | the patched connect: one new CONNECTING WebSocket, then the options |
| SocketLayer.Library.ShutdownSocket | compile/php/phpwasm-emscripten-library.js:725-743 | one peer is closed and removed, the rest untouched |
| SocketLayer.Library.CleanupFailedConnect | compile/php/phpwasm-emscripten-library.js:1540-1556 | the peer is removed and the error stored; the WebSocket is left live exactly when it was and close() throws |
| Connect.EveryRun | compile/php/phpwasm-emscripten-library.js:1504-1590 | until a decisive event everything stays registered and nothing is answered; from then on there is one answer, that event's, and nothing registered |
| Connect.WakesOnce | compile/php/phpwasm-emscripten-library.js:1558-1590 | whatever the order and repetition of events, at most one wake, with 0 exactly when open came first and ETIMEDOUT exactly when the timer did; afterwards no listener and no timer |
| Connect.FailureCleansUp | compile/php/phpwasm-emscripten-library.js:1540-1567 | at a failed wake the peer is removed, connecting is false, sock.error is the errno reported, the WebSocket closing unless close() threw |
| Connect.ErrorLaterOn | compile/php/phpwasm-emscripten-library.js:1540-1556 | after a failure the stored error stays the reported one exactly unless an 'error' event follows a timeout |
| Connect.CleanUpNeedsTheWait | compile/php/phpwasm-emscripten-library.js:1486-1502 | a failed connect has cleaned up exactly when its WebSocket was CONNECTING when it looked |
| Connect.ImmediateAnswers | compile/php/phpwasm-emscripten-library.js:1435-1502 | connect waits exactly for a blocking stream socket whose WebSocket is CONNECTING; otherwise EINPROGRESS, 0, or the error, case by case |
| Connect.TimerIsSendTimeout | compile/php/phpwasm-emscripten-library.js:1504-1574 | until a decisive event the timer is armed with the SO_SNDTIMEO last set on that socket, 30 seconds if none was, and not at all for 0 |
| Connect.SuccessKeepsTheSocket | compile/php/phpwasm-emscripten-library.js:1558-1582 | at a successful wake the peer is listed, connecting is over and no error was added |
| Connect.ConnectCall.constructor | compile/php/phpwasm-emscripten-library.js:1504-1529 | what is registered when the wait begins: SO_SNDTIMEO, else 30 seconds, none for 0 |
| Connect.ConnectCall.FinishConnect | compile/php/phpwasm-emscripten-library.js:1531-1567 | the latch, the clean-up and the wake, also when ws.close() throws or emits events before returning |
| Connect.ConnectCall.Dispatch | compile/php/phpwasm-emscripten-library.js:1569-1590 | one event as SOCKFS and the handlers hear it |
| PollSocket.PollNow | compile/php/php_wasm.c:192-275 | the immediate answer, the delayed one, or the promises to race, for every socket, event mask and timeout |
| PollSocket.RaceCoversEveryWebSocket | compile/php/php_wasm.c:251-275 | a waiting poll awaits, on each of its WebSockets, exactly the events asked for and the close; only the opening of an open one has already come |
| PollSocket.PollAnswers | compile/php/php_wasm.c:213-329 | exactly when poll answers 1 at once, 0 at once, after the timeout, by a race, or never, for read, write and listening polls |
| PollSocket.FiniteTimeoutAnswers | compile/php/php_wasm.c:234-354 | a poll with a finite timeout is always answered, by the timeout at the latest, and then with 0 |
| PollSocket.OpenIsWritable | compile/php/php_wasm.c:257-260 | a write poll on an open connection is answered 1 without an event |
| PollSocket.WakesOnceAndLeavesNothing | compile/php/php_wasm.c:331-354 | for every interleaving of events, race callback, timeout and late resolutions: at most one wake, then no listener and no timer |
| PollSocket.AnswerHasItsCause | compile/php/phpwasm-emscripten-library.js:617-634 | 1 only if an awaited event came or was already there, 0 only if the timeout fired: promises resolved by cancelling never count |
| PollSocket.EventWakes | compile/php/php_wasm.c:331-344 | after any run, an awaited event and the race callback leave the caller awake |
| PollSocket.PollCall.ClearPolling | compile/php/php_wasm.c:332 | every cancel runs: its listener is removed and its promise left to resolve later |
| PollSocket.PollCall.OnRace | compile/php/php_wasm.c:335-344 | the callback of the race |
| PollSocket.PollCall.OnTimeout | compile/php/php_wasm.c:346-353 | the callback of the timeout |
| Receive.DatagramRead | compile/php/phpwasm-emscripten-library.js:461-473 | after any history the k-th datagram read returns the k-th datagram that arrived; the pending error comes only when all are read, EAGAIN only when nothing is left |
| Receive.ErrorsAddUp | compile/php/phpwasm-emscripten-library.js:1360-1364 | reported, swallowed, overwritten and pending errors add up to those raised, so none is reported twice across recvmsg and SO_ERROR |
| Receive.StreamConserved | compile/php/phpwasm-emscripten-library.js:491-515 | the bytes returned followed by those queued are the bytes that arrived, whatever the read lengths |
| Receive.StreamRead | compile/php/phpwasm-emscripten-library.js:491-515 | after any history a stream read returns as many of the next bytes as asked for, up to the end of the message in front; with nothing unread ENOTCONN, EOF or EAGAIN exactly as the peer is missing, ending or not |
| Receive.StreamReadsOn | compile/php/phpwasm-emscripten-library.js:491-515 | what it returns follows, in the bytes that arrived, on what was returned before; nothing is left exactly when all was returned |
| Receive.DatagramPollAgrees | compile/php/php_wasm.c:213-250 | a read poll is right about the next recvmsg exactly unless an error is pending with no peer closing; always right with a closing or closed peer |
| Receive.StreamPollAgrees | compile/php/php_wasm.c:213-250 | on a connected stream socket poll is ready exactly when the read would not answer EAGAIN |
| Receive.RecvFromIsOneRecv | compile/php/phpwasm-emscripten-library.js:1621-1653 | however often it retries, a recvfrom that returned took exactly one recvmsg, at the first attempt with an answer or timed out; a suspended one took nothing |
| Receive.EagainNotEarly | compile/php/phpwasm-emscripten-library.js:1636-1650 | a blocking read that answers EAGAIN has a positive SO_RCVTIMEO and ended at an attempt less than a millisecond before that has elapsed |
| Receive.FullTimeoutGuaranteed | compile/php/phpwasm-emscripten-library.js:1637-1646 | no call begun at a given instant, on any socket and under any events, gives up before the timeval passed to setsockopt has elapsed, if and only if it begins no further into its millisecond than rounding the timeval up had added |
| Receive.WaitsAsSet | compile/php/phpwasm-emscripten-library.js:1636-1638 | the timeout a read finds is the SO_RCVTIMEO set on its socket |
| Receive.GivesUpEarly | compile/php/phpwasm-emscripten-library.js:1637-1646 | a call that was to wait a millisecond and answers EAGAIN after a microsecond |
| Receive.TimeoutEndsTheCall | compile/php/phpwasm-emscripten-library.js:1636-1650 | an attempt at or after the timeout leaves no suspended call |
| Receive.Socket.Recvmsg | compile/php/phpwasm-emscripten-library.js:461-473 | the patched recvmsg on the queue and the pending error |
| Receive.Socket.WasmRecvfrom | compile/php/phpwasm-emscripten-library.js:1621-1653 | the first try, the decision to suspend, and every retry, against any moves of the world |
| DescriptorFlags.LastRequestWins | compile/php/phpwasm-emscripten-library-file-locking-for-node.js:62-78 | after any number of F_SETFL calls O_NONBLOCK is what was asked for last and no other flag than O_APPEND changed |
| DescriptorFlags.NewDescriptor | compile/php/phpwasm-emscripten-library.js:1678-1723 | the flags a new descriptor has, from socket and from accept4 |
| DescriptorFlags.SuspendsExactlyWhenBlocking | compile/php/phpwasm-emscripten-library.js:1621-1635 | a read suspends exactly when there is no answer, the last request left the descriptor blocking and MSG_DONTWAIT is absent |
| DescriptorFlags.Stream.Socket | compile/php/phpwasm-emscripten-library.js:1678-1691 | socket(2) honours SOCK_NONBLOCK |
| DescriptorFlags.Stream.Accept4 | compile/php/phpwasm-emscripten-library.js:1698-1723 | accept4(2) inherits the listening socket's flags and adds SOCK_NONBLOCK |
| DescriptorFlags.Stream.FcntlSetFl | compile/php/phpwasm-emscripten-library-file-locking-for-node.js:68-78 | afterwards O_NONBLOCK and O_APPEND are those of the argument and every other bit is what it was |
| PollLoop.WrapPoll | compile/php/php_wasm.c:978-996 | returns the first answer, or 0 at the first turn past the deadline, after at most timeout / 5 + 2 checks |
| PollLoop.ChecksBounded | compile/php/php_wasm.c:980-995 | the bound on checks for every clock on which sleeping takes at least as long as asked |
| PollLoop.PollKeepsTime | compile/php/php_wasm.c:989-994 | never 0 before the deadline, never a sleep more than a millisecond past it |
| PollLoop.PollWaitsAsAsked | compile/php/php_wasm.c:980-994 | without a deadline poll returns only with an answer, with timeout 0 it looks once, and no earlier look had an answer |
| PollLoop.ReadyIsNeverMissed | compile/php/php_wasm.c:981-994 | on a given clock no descriptor that becomes ready by the deadline and stays so is missed, if and only if the last look is taken at or after the deadline |
| PollLoop.MissedInsideTheCheck | compile/php/php_wasm.c:981-994 | a descriptor is missed exactly when it becomes ready after the last look; then the deadline passed between that look and the reading of the clock, and the rest before it was longer than 5 ms |
| PollLoop.SlowCheckMisses | compile/php/php_wasm.c:981-994 | a run in which looking takes time and such a descriptor is missed |
| PollLoop.WrapSelect | compile/php/php_wasm.c:924-966 | for any sets, NULL or not: exactly the ready descriptors stay, bits at or above max_fd are unchanged, the except set is emptied below it, the result counts the bits left, and the timeout is slept out when nothing was polled |
| EnvBlock.SizeEnv | compile/php/proc_open.c:86-104 | the size computed is the number of bytes the writing pass copies |
| EnvBlock.ArrayToEnvp | compile/php/proc_open.c:63-134 | the block is exactly the kept strings, each with its NUL, and four zero bytes; slot i points at string i, the others are NULL |
| EnvBlock.DecodeEnv | compile/php/phpwasm-emscripten-library.js:789-802 | envLength slots into an object, NULL slots included; no object for length 0 |
| EnvBlock.ThroughProcOpen | compile/php/proc_open.c:403-407 | C and JavaScript joined by num_env: the object of all kept strings, each up to its first NUL and split at its first '=' |
| EnvBlock.SurvivesExactly | compile/php/phpwasm-emscripten-library.js:793-801 | for every array without positional elements the child sees exactly the non-empty ones, if and only if none of them has a NUL, an '=' in its key or the key `__proto__` |
| EnvBlock.RoundTrip | compile/php/proc_open.c:63-134 | the C and the JavaScript code run one after the other give that object under that condition, and none for an empty array |
| ExecLines.StripTrailing | compile/php/php_wasm.c:681-692 | in place and with size_t wrapping: the longest prefix that does not end in white space |
| ExecLines.HandlesTheLines | compile/php/php_wasm.c:785-826 | every line of the output is handed over whole and in order exactly when the end is not lossy |
| ExecLines.ExecIsRight | compile/php/php_wasm.c:694-721 | type 1 prints the output verbatim and nothing else prints, type 2 stores every line stripped and nothing else stores |
| ExecLines.LinesAreLines | compile/php/php_wasm.c:785-826 | the lines spoken of are the output cut after every newline |
| ExecLines.LineEndStripped | compile/php/php_wasm.c:681-692 | a line is returned without its newline or carriage return |
| ExecLines.OneLine | compile/php/php_wasm.c:778-831 | what an output of one line prints, stores and returns |
| ExecLines.LossyExample | compile/php/php_wasm.c:788-801 | an output of which 4095 bytes are lost |
| ExecLines.Exec | compile/php/php_wasm.c:778-831 | the buffer never overflows for any chunking; what is printed, stored and returned is that of the lines handed over |
| ExecLines.Continue | compile/php/php_wasm.c:788-801 | the buffer grows exactly when needed and keeps the incomplete line |
| JsonHeaders.EmitReadsBack | compile/php/php_wasm.c:2024-2079 | the text decodes to the same status and headers followed by the terminator exactly when no header has a byte below 0x20, and to nothing otherwise |
| JsonHeaders.CharsOfEscaped | compile/php/php_wasm.c:2068-2078 | an escaped header read as a JSON string is the header, or an error if it has a control character |
| JsonHeaders.NumberOfDecimal | compile/php/php_wasm.c:2007-2013 | every status, negative ones too, reads back from its decimal text |
| JsonHeaders.Sapi.SendHeader | compile/php/php_wasm.c:2061-2079 | one header, escaped byte by byte, or the terminator |
| JsonHeaders.Sapi.SendHeaders | compile/php/php_wasm.c:2024-2053 | the whole file: status, headers, default content type, terminator |
| DbaTable.FindIsFirst | compile/extensions/dba/dba.c:491-503 | the connection found is the first on the path |
| DbaTable.FirstMatchDecides | compile/extensions/dba/dba.c:813-826 | looking at the first match is as good as looking at all exactly when no connection is masked by one that does not lock |
| DbaTable.AdmittedExactly | compile/extensions/dba/dba.c:813-826 | without masking an open is refused exactly when it clashes with some connection; a handler that does not lock is never refused |
| DbaTable.ReadersOrOneWriter | compile/extensions/dba/dba.c:813-826 | in every run on locking handlers, without "-" and with canonical paths, a path has only shared connections or one exclusive one |
| DbaTable.MaskingBreaksDiscipline | compile/extensions/dba/dba.c:664-672 | on any path, three opens that leave two exclusive connections |
| DbaTable.AliasedOpens | compile/extensions/dba/dba.c:850-866 | two opens of a path that is not the real one, in any modes that lock the database, are both admitted, and break the discipline unless both only read |
| DbaTable.CanonicalPathNeeded | compile/extensions/dba/dba.c:850-866 | on a system that resolves paths by a given function, every run of locking opens and closes keeps the discipline if and only if the function leaves every path as it is |
| DbaTable.PlainModeLocks | compile/extensions/dba/dba.c:632-763 | on locking handlers every accepted mode without "-" locks: shared for r, exclusive for w, c and n |
| DbaTable.ModesAccepted | compile/extensions/dba/dba.c:649-787 | exactly which mode strings are accepted for which handlers, and what they lock |
| DbaTable.BareTestLockNeverOpens | compile/extensions/dba/dba.c:659-663 | a mode whose second character is "t" changes nothing but the counter |
| DbaTable.PlanHoldsItsStreams | compile/extensions/dba/dba.c:828-941 | at every exit of an open the two stream fields hold exactly the streams it opened |
| DbaTable.OpenSucceedsExactly | compile/extensions/dba/dba.c:831-966 | an open adds a connection exactly when mode, admission, lock, stream and driver all work out; which streams it then has, and under which path; otherwise table and open streams are as before |
| DbaTable.CloseCloses | compile/extensions/dba/dba.c:294-309 | after any run a close removes exactly its entry and closes each of its streams once, touching no other |
| DbaTable.CloseTwice | compile/extensions/dba/dba.c:294-309 | closing what is not in the table changes nothing |
| DbaTable.OpenCloseRestores | compile/extensions/dba/dba.c:294-309 | an open and the close of what it opened leave the table as it was |
| DbaTable.ReopenAfterClose | compile/extensions/dba/dba.c:294-309 | open, close and open again on one path adds exactly the last connection |
| DbaTable.NoStreamLeaksOrClosesTwice | compile/extensions/dba/dba.c:243-272 | in every run of opens, failing or not, and closes, each stream is owned by exactly one entry or was closed exactly once |
| DbaCalls.Dba.FindConnection | compile/extensions/dba/dba.c:491-503 | the loop finds the first entry on the path |
| DbaCalls.Dba.EstablishLock | compile/extensions/dba/dba.c:831-885 | the lock stream, the path it resolved, whether the open goes on |
| DbaCalls.Dba.OpenDatabase | compile/extensions/dba/dba.c:887-941 | the database stream, shared with the lock if that is the database |
| DbaCalls.Dba.CloseInfo | compile/extensions/dba/dba.c:243-272 | both streams are closed, a shared one once |
| DbaCalls.Dba.Open | compile/extensions/dba/dba.c:531-966 | the whole new state for every request and every outcome of the calls it makes |
| DbaCalls.Dba.Close | compile/extensions/dba/dba.c:294-309 | the entry is removed and its streams closed; a second close changes nothing |
| Cdb.PackRoundTrip | compile/extensions/dba/dba_cdb.c:254-262 | a little-endian 32-bit word unpacks to the number packed |
| Cdb.StepReadsRecord | compile/extensions/dba/dba_cdb.c:279-307 | at a record the key is read and the 32-bit cursor lands behind the record |
| Cdb.WalkFollowsRecords | compile/extensions/dba/dba_cdb.c:215-307 | in a well-formed file the cursor visits exactly the record boundaries, without overflow, and stays at the end |
| Cdb.EmptyDatabase | compile/extensions/dba/dba_cdb.c:239-307 | on a new cursor over a database without records firstkey answers NULL; nextkey then answers NULL exactly when the file ends within 8 bytes of its header, and otherwise the 2048 bytes from position 8 |
| Cdb.Cursor.FirstKey | compile/extensions/dba/dba_cdb.c:239-275 | key, end of data and cursor for any file |
| Cdb.Cursor.NextKey | compile/extensions/dba/dba_cdb.c:279-307 | key and cursor for any file and position |
| Cdb.AllKeys | compile/extensions/dba/dba_cdb.c:239-307 | firstkey and nextkey until NULL yield exactly the keys of the records, in order, duplicates included |
| AreaStack.ComputeRanges | compile/extensions/fastchart/fastchart_area.c:121-237 | the ranges of both axes, streams and overlays included |
| AreaStack.DrawLayers | compile/extensions/fastchart/fastchart_area.c:410-527 | the boundaries of layer s are the stack heights below and above it, shifted for a stream |
| AreaStack.LayersInsideRange | compile/extensions/fastchart/fastchart_area.c:124-213 | at every category both boundaries of every layer lie inside the separately scanned range of its axis, if and only if the chart is not a stream of gaps under overlays that do not reach zero |
| AreaStack.AllGapStream | compile/extensions/fastchart/fastchart_area.c:191-229 | a stream of gaps is inside exactly when no overlay value that takes part is a number, or one is at most 0 and one at least 0 |
| AreaStack.AllGapStreamExample | compile/extensions/fastchart/fastchart_area.c:214-229 | a chart whose layers are outside its range |
| AreaStack.LayersTile | compile/extensions/fastchart/fastchart_area.c:475-524 | a layer's top is point for point the bottom of the next layer on its axis |
| AreaStack.LayerThickness | compile/extensions/fastchart/fastchart_area.c:475-524 | a layer is as thick as its value; a gap, and a negative value in a stream, has no thickness |
| AreaStack.FirstLayerOnZero | compile/extensions/fastchart/fastchart_area.c:475-524 | the lowest layer of an axis stands on zero unless the stack is centred |
| AreaStack.LayerAxis | compile/extensions/fastchart/fastchart_area.c:411-415 | which axis a layer is on |
| AreaStack.OverlaysInsideRange | compile/extensions/fastchart/fastchart_area.c:214-229 | every overlay value over a category lies inside the range of its axis |
| AreaStack.RangeIsTight | compile/extensions/fastchart/fastchart_area.c:124-237 | both ends of a range are values the chart has on that axis |
| AreaStack.StreamIsCentred | compile/extensions/fastchart/fastchart_area.c:324-338 | a stream spans exactly -T/2 to T/2 at each category |
| AreaCurve.Densify | compile/extensions/fastchart/fastchart_area.c:37-81 | the points written are the whole curve: the callers' capacity never cuts it |
| AreaCurve.CurveHitsEveryPoint | compile/extensions/fastchart/fastchart_area.c:55-79 | on the canvas the densified curve passes through every raw point |
| AreaCurve.StepCorners | compile/extensions/fastchart/fastchart_area.c:43-54 | STEP_AFTER keeps a row until the next column, STEP_BEFORE goes to the next row at once |
| AreaCurve.SubdivFitsTheWay | compile/extensions/fastchart/fastchart_area.c:58-65 | one sub-segment for every four pixels, between 2 and 20 |
| AreaCurve.SegmentsJoinSmoothly | compile/extensions/fastchart/fastchart_area.c:57-75 | the slope a segment ends with is the slope the next begins with |
| AreaCurve.CatmullEnds | compile/extensions/fastchart/fastchart_axis.c:200-216 | a segment ends on its control point exactly when that is not negative |
| CatmullRom.SegmentIsHermite | compile/extensions/fastchart/fastchart_axis.c:200-216 | the formula is the Hermite cubic with the Catmull-Rom slopes |
| CatmullRom.SegmentIsStraight | compile/extensions/fastchart/fastchart_axis.c:200-216 | evenly spaced values are joined by a straight line |
| CatmullRom.SegmentWithin | compile/extensions/fastchart/fastchart_axis.c:200-216 | a Catmull-Rom segment leaves the extent of its four control values by at most an eighth of it |
| CatmullRom.BetweenExactly | compile/extensions/fastchart/fastchart_axis.c:200-216 | it stays between the two values it joins, at every parameter, if and only if an inequality between the four control values holds |
| AreaCurve.StepsStayWithin | compile/extensions/fastchart/fastchart_area.c:43-54 | a stepped curve never leaves the rows of its raw points |
| AreaCurve.SmoothOvershoot | compile/extensions/fastchart/fastchart_area.c:55-79 | a smooth curve, rounded to pixels, leaves the rows of its raw points by at most an eighth of their distance |
| AreaCurve.OvershootIsMet | compile/extensions/fastchart/fastchart_area.c:55-79 | that bound is reached, for every extent |
| AreaCurve.SmoothInsideExactly | compile/extensions/fastchart/fastchart_area.c:55-79 | smooth curves through points between two rows all stay between them if and only if the rows are less than four pixels apart |
| AreaCurve.CalmCurveStays | compile/extensions/fastchart/fastchart_area.c:55-79 | a smooth curve whose segments all meet that inequality stays within the rows of its raw points |
| AreaCurve.CurvesAreTame | compile/extensions/fastchart/fastchart_area.c:37-81 | the three together, for whatever interpolation is set |
| AreaOutline.RowsFall | compile/extensions/fastchart/fastchart_axis.c:796-826 | greater values get higher rows, and none outside the plot |
| AreaOutline.RowIsNearest | compile/extensions/fastchart/fastchart_axis.c:796-826 | a value shown is drawn at the row nearest to its place |
| AreaOutline.LinearPlotIsValid | compile/extensions/fastchart/fastchart_axis.c:796-826 | so every plot with linear axes is one of those that the results about drawn outlines speak of |
| AreaOutline.DrawCurvedLayers | compile/extensions/fastchart/fastchart_area.c:421-473 | the curves drawn for each layer are those of the stack heights below and above it, and the polygon is the top followed by the bottom backwards |
| AreaOutline.OutlinesInside | compile/extensions/fastchart/fastchart_area.c:427-456 | the drawn polygon of a layer lies within the rows of the separately scanned range if stepped or calm, and never leaves them by more than an eighth |
| AreaOutline.SmoothLeavesThePlot | compile/extensions/fastchart/fastchart_area.c:427-456 | a smooth chart that, on plots of every height, is drawn outside the plot and below its own bottom boundary |
| AreaOutline.OutlinesTile | compile/extensions/fastchart/fastchart_area.c:421-456 | the curve drawn on top of a layer is the curve drawn below the next layer of its axis |
| AreaOutline.StepLayersInOrder | compile/extensions/fastchart/fastchart_area.c:421-456 | stepped layers without negative values never overlap: over every column a later boundary is nowhere below an earlier one |
| AreaCurve.Polygon | compile/extensions/fastchart/fastchart_area.c:475-494 | the outline is the top followed by the bottom backwards exactly up to 2048 points |
| BarSlots.SlotsPartition | compile/extensions/fastchart/fastchart_bar.c:89-97 | every pixel of the axis is in exactly one category's slot |
| BarSlots.SlotsDoNotDrift | compile/extensions/fastchart/fastchart_bar.c:82-97 | the middle of a slot is under a pixel from the exact centre and at the label's pixel or the one before it, for every category and number of categories |
| BarSlots.BarsDisjoint | compile/extensions/fastchart/fastchart_bar.c:98-112 | bars of a slot never overlap |
| BarSlots.BarsInsideSlot | compile/extensions/fastchart/fastchart_bar.c:98-112 | every drawn bar is inside its slot exactly when the slot has two pixels or more |
| BarSlots.WideSpanWideSlots | compile/extensions/fastchart/fastchart_bar.c:93-97 | three pixels per category make every slot at least three wide |
| BarSlots.EveryBarDrawn | compile/extensions/fastchart/fastchart_bar.c:408-411 | with a pixel per series every bar is drawn, uncut |
| BarSlots.BarProportions | compile/extensions/fastchart/fastchart_bar.c:97-110 | a sixth of the slot is free on either side, the rest is shared evenly to the pixel, and a bar takes its percentage of its share to the nearest pixel |
| BarSlots.BarInItsShare | compile/extensions/fastchart/fastchart_bar.c:408-411 | the bar of series s stands in the middle of the s-th share |
| BarStack.DrawStack | compile/extensions/fastchart/fastchart_bar.c:372-396 | the segments of a category, in drawing order |
| BarStack.SegmentsInside | compile/extensions/fastchart/fastchart_bar.c:372-396 | a segment is as tall as its value and between the two totals |
| BarStack.SegmentsTile | compile/extensions/fastchart/fastchart_bar.c:372-396 | from the negative total through 0 to the positive total every height is in exactly one segment |
| BarStack.SegmentsComplete | compile/extensions/fastchart/fastchart_bar.c:372-396 | every value has its segment on its side of zero, a gap has none |
| BarStack.SegmentsInOrder | compile/extensions/fastchart/fastchart_bar.c:372-396 | series stack in their order away from zero |
| BarStack.ComputeRange | compile/extensions/fastchart/fastchart_bar.c:125-185 | the range in all three modes, overlays included |
| BarStack.StackInsideRange | compile/extensions/fastchart/fastchart_bar.c:145-157 | every stacked segment and the zero line lie inside the range of the separate scan |
| BarStack.BarsInsideRange | compile/extensions/fastchart/fastchart_bar.c:134-166 | so do the ends of floating, layered and side-by-side bars |
| BarStack.OverlaysInsideRange | compile/extensions/fastchart/fastchart_bar.c:167-177 | every overlay value over a category lies inside the range |
| BarStack.RangeIsTight | compile/extensions/fastchart/fastchart_bar.c:125-185 | both ends of the range are values the chart has |

## Left out

- SocketOptions.TimevalRoundTrip: numbers are exact integers; the rounding of JavaScript numbers above 2^53 is not modelled.
- Connect.ImmediateAnswers: without JSPI the call is synchronous and throws what SOCKFS throws into its caller, which is not modelled.
- SocketLayer.Library.ShutdownSocket: which peer SOCKFS lists first is given as an argument, so the result holds for any of them.
- SocketLayer.Library.ConnectSocket: SOCKFS's own refusals (already connected, unreachable host) are not modelled here; the WebSockets of listening sockets are not either, only those made by connect.
- DbaTable.ReadersOrOneWriter: the counter in a connection's key is unbounded; the key's uniqueness after 2^32 opens is not modelled.
- AreaStack.LayersInsideRange: doubles are real numbers, so rounding and infinities are not modelled; nor is a user's override of the axis range.
- AreaCurve.CalmCurveStays: one way once the curve is rounded to pixels, because an overshoot of less than half a pixel disappears; before rounding the condition is exact (CatmullRom.BetweenExactly).
- AreaOutline.RowsFall: linear axes only; stacked charts refuse a logarithmic one. How the range is widened to round numbers is not modelled: the results hold for whatever range the axis shows.
- EnvBlock.SurvivesExactly: arrays with positional elements are covered by ThroughProcOpen alone, which says what object they give.
- ExecLines.Exec: type 3 (passthru) copies bytes and is left out; EXEC_INPUT_BUF is taken as PHP's 4096.
- JsonHeaders.EmitReadsBack: the reader covers objects, arrays, strings and integers, and takes one byte for one character; true, false, null, fractions and surrogate pairs are not read.
- EnvBlock.RoundTrip: strings are bytes; UTF8ToString's treatment of invalid UTF-8 is not modelled.
- Descriptors duplicated with dup(2) are not modelled: each socket object has one descriptor.
- The branch of `wasm_poll_socket` for pipes and other streams, and `wasm_recv`, which repeats `wasm_recvfrom`'s loop with its own zero for errors.
- Persistent dba connections and the Windows branches of dba.c: they depend on engine lists and systems outside the repository.
- Child processes themselves, proc_open's descriptors, DNS, memory storage, SAPI start-up and shutdown: calls into code outside the repository.
- Band mode and unstacked areas, horizontal and radial bars, colours, text and legends: they would only add easier members.
- The build and release scripts and the generated package loaders.
