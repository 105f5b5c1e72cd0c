# Verification of the reactor and its HTTP/1.x front end

A Dafny model of the network library's core: the byte buffer, the resumable request parser, the response
printer, the poller, the TCP connection, the HTTP server on top of it, the event loop's task queue, sends
from other threads, the life of connections across loops, and the timer manager. Each part the C++ code
updates in place is a class here; its methods are proved against functions on values, and the theorems about
runs are proved about those functions. `dafny verify dfyconfig.toml` checks everything.

| file | models |
|---|---|
| `Text.dfy` | byte strings, CRLF search, trimming, `std::stoul`, decimal printing |
| `Buffer.dfy` | `Buffer`: storage, reader and writer index |
| `HttpRequest.dfy`, `HttpParser.dfy` | the request record, `HttpParser` |
| `RequestRoundTrip.dfy` | printing requests and reading them back, pipelining |
| `HeaderLaws.dfy` | what the parser makes of one line, told from the line |
| `HttpResponse.dfy`, `ResponseLaws.dfy` | `HttpResponse::appendToBuffer`, and what a client reads in its output |
| `EPollPoller.dfy` | `Channel`, `EPollPoller` and the kernel's interest list |
| `TcpConnection.dfy`, `ConnectionLaws.dfy` | `TcpConnection` on its own loop: output path, shutdown, callbacks; and its runs told from the kernel's answers and from the steps |
| `HttpServer.dfy`, `SessionLaws.dfy`, `HttpSession.dfy` | `HttpServer::onMessage` on one connection, end to end: as functions, as runs of the connection, and as objects driven by events |
| `EventLoop.dfy` | the task queue and the wakeup protocol |
| `SenderOrder.dfy`, `SenderPrefix.dfy`, `SenderHalfClose.dfy`, `SenderRun.dfy` | `send` and `shutdown` from any thread: call order, lost messages, half-closes, and runs that bound the claims |
| `TcpServer.dfy`, `ServerDispatch.dfy`, `TcpServerObject.dfy` | `TcpServer` and all its loops: establishing, closing and destroying connections; its reports, tasks and streams connection by connection; the server object |
| `ConnectionRemoval.dfy`, `ServerRun.dfy` | how often a connection is closed and removed from the server's map, and runs that bound the claims |
| `Timer.dfy` | `TimerManager` |

## How to read the model

- A byte is a `char`. Nothing depends on the alphabet, so every result holds for the 256 bytes.
- System calls are parameters. `write` may take any number of bytes up to the length offered or fail with any
  errno; `readv` may deliver any bytes that fit both segments, or fail; `poll` may report any subscribed
  event, error or hang-up of any registered descriptor, any number of times.
- Threads are interleaved steps: one critical section, one wakeup write, one load or store of `state_`, one
  handler or one task each. A theorem about `Play` or `Run` is about every finite sequence of such steps.
- Fields named as histories (`wire`, `accepted`, `offered`, `trace`, `queued`, `ran`, ...) record what
  happened; no branch of the code depends on them.

## What the code does that one might not expect

The model follows the code in each of these but the one on `wakeup`.

- `parseRequest` entered in `kGotAll` never returns (`http_parser.cpp:25-95`). The state is a precondition, and
  `onMessage` is proved never to leave the parser in it.
- Any line without a colon ends the headers, not only the empty line (`http_parser.cpp:47-77`).
- `std::stoul` throws on a Content-Length that is no number or too large (`http_parser.cpp:65`). The header is
  already stored and the line not consumed; nothing catches the exception. It also accepts a sign, leading
  blanks and trailing characters.
- `onMessage` handles one request per read (`http_server.cpp:48-86`). A second one that came in the same read
  waits until more bytes arrive: `SecondRequestInOneReadWaits`.
- The 32-byte scratch buffer cuts the Content-Length line of a body of 10^13 bytes or more
  (`http_response.cpp:29`): `ResponseRoundTrip` is an equivalence.
- A channel that is not registered and is given an empty mask is registered with that mask
  (`epoll_poller.cpp:65-72`).
- `handleClose` drops the writing interest and keeps the state (`tcp_connection.cpp:249-263`). A `shutdown`
  after it half-closes with the bytes still in the output buffer unsent: `HalfCloseAfterCloseCutsBytes`;
  `HalfCloseCutsExactly` says when.
- `handleClose` can be delivered twice, and then the assertion at `tcp_server.cpp:124` fails. A send taken
  after it turns the writing interest on again, the descriptor is polled again, and a hang-up closes again:
  `RemovalMissesAfterLateSend`. Or one report of a hang-up and urgent data without ordinary data runs the close
  and the read callback: `RemovalMissesAfterOneReport`. Without these two it comes once: `ClosedOnce`.
- `shutdown` tests and sets `state_` in two steps (`tcp_connection.cpp:145-150`). On another thread it can
  store `kDisconnecting` over `kDisconnected`, and this is the only backward move there is:
  `StateMovesBackward`, `BackwardOnlyByForeignShutdown`. It can also let the loop half-close before a send of
  the same thread is carried out: `ForeignShutdownOvertakesSend`, `HalfCloseSends`.
- One `shutdown` from another thread can shut the write side down twice, first by the drain and then by its own
  task: `OneShutdownHalfClosesTwice`. `HalfCloseByGuard` and `HalfCloseCount` say how often it happens,
  `HalfClosesOnce` when it is once.
- A message can be lost and a later one of the same thread enter the stream, after a fatal direct write or
  after a store over `kDisconnected`: `FaultBreaksOrder`, `OverwriteBreaksOrder`. `FirstOnesExactly` says when
  the messages that entered are the first ones sent; if fatal errors last, as those of TCP do, only the store
  can spoil it: `FatalOrder`. Call order holds in any case: `PerSenderOrder`.
- A functor that the loop's own thread queues outside the loop wakes nobody (`event_loop.cpp:115-124`):
  `QueuedBeforeLoopIsNotAnnounced`.
- `wakeup` writes two bytes where an eventfd takes eight (`event_loop.cpp:127-133`). Here the model departs
  from the code: it has the increment that is meant.
- `processTimers` erases and inserts id 0 in `active_timers_` whatever the timer's id (`timer.cpp:79`, `:93`).
  The two indexes agree after a run exactly when nothing but the first timer ever added has fired:
  `AgreementOfRuns`, `SecondTimerLeavesStray`. Every scheduled timer stays cancellable all the same:
  `EveryRunIsSound`.

## Model

| member | source | states |
|---|---|---|
| `Buffers.Buffer.constructor` | src/core/net/buffer.h:37-39 | An empty queue; 8 bytes in front and 1024 behind. |
| `Buffers.Buffer.FindCRLFOffset` | src/core/net/buffer.cpp:10-14 | The loop finds the first CRLF of the unread bytes, or says there is none. |
| `Buffers.Buffer.Retrieve` | src/core/net/buffer.cpp:39-45 | Drops the first `len` unread bytes; all of them when there are fewer. |
| `Buffers.Buffer.RetrieveAll` | src/core/net/buffer.cpp:55-58 | The queue is empty. |
| `Buffers.Buffer.RetrieveAsString` | src/core/net/buffer.cpp:66-70 | Returns the first `len` unread bytes and leaves exactly the rest. |
| `Buffers.Buffer.MakeSpace` | src/core/net/buffer.cpp:81-95 | Compaction by an overlapping forward copy, or reallocation: the unread bytes are the same and `len` bytes fit. It reallocates exactly when both gaps together are too small. |
| `Buffers.Buffer.EnsureWritableBytes` | src/core/net/buffer.cpp:73-78 | The same unread bytes with room for `len`; storage grows only when both gaps are too small. |
| `Buffers.Buffer.Append` | src/core/net/buffer.cpp:98-102 | The queue with the bytes at its end. Storage changes only when both gaps together are below the length, and is then smaller than the prepend area, the bytes now readable and the length together. |
| `Buffers.Buffer.HasWritten` | src/core/net/buffer.cpp:115-118 | The bytes stored behind the queue become its end. |
| `Buffers.Buffer.ReadFd` | src/core/net/buffer.cpp:142-173 | Whatever `readv` scattered over the two segments is appended in order, through the spill from the stack segment; an error changes nothing. |
| `Buffers.Drive` | src/core/net/buffer.cpp:39-173 | Any sequence of appends, retrievals and reads: the buffer holds what an abstract byte queue holds, the indices stay in order, and the storage is at most the initial one or below the prepend area plus twice the most bytes ever unread. |
| `Text.FindCRLF` | src/core/net/buffer.cpp:10-14 | The first CRLF: a pair is there and none before it. |
| `Text.FindCRLFExtends` | src/core/net/buffer.cpp:10-14 | A CRLF once found stays the first one however many bytes follow. |
| `Text.Stoul` | src/core/http/http_parser.cpp:65 | `std::stoul`: a number below 2^64, or an exception. |
| `Text.StoulPrefix` | src/core/http/http_parser.cpp:65 | Digits followed by anything else convert to their value, exactly up to 2^64 - 1. |
| `Text.StoulDecimal` | src/core/http/http_response.cpp:29 | What the printer writes as a length is what the parser reads, for every 64-bit number. |
| `Text.DecimalLength` | src/core/http/http_response.cpp:29 | A number has at most k digits exactly when it is below 10^k. |
| `HeaderLaws.SpaceExactly` | src/core/http/http_parser.cpp:53-60 | `isspace` holds of the six blank characters of the C locale and of no other. |
| `HeaderLaws.StoulExactly` | src/core/http/http_parser.cpp:65 | `std::stoul` converts if and only if the text is blanks, a sign or none, and digits below 2^64, with anything but a digit behind them. |
| `HeaderLaws.StoulReads` | src/core/http/http_parser.cpp:65 | The number is then the value of the digits, counted down from 2^64 after a minus sign. |
| `HttpRequests.MethodNamed` | src/core/http/http_request.h:66-73 | Only the five method names are accepted, each as itself. |
| `HttpParsers.RequestLineRead` | src/core/http/http_parser.cpp:100-146 | Known method, space-free path and known version on a line are read back, and nothing else of the request changes. |
| `HttpParsers.RequestLineAccepted` | src/core/http/http_parser.cpp:100-146 | A line is accepted if and only if it is a known method, a space-free path and HTTP/1.0 or HTTP/1.1 with single spaces. |
| `HeaderLaws.RequestLineIs` | src/core/http/http_parser.cpp:100-146 | Each method by its literal name, any space-free path, and HTTP/1.0 or HTTP/1.1 set exactly these three fields. |
| `HeaderLaws.RefusedLineSets` | src/core/http/http_parser.cpp:100-146 | A refused line leaves set what came before the fault: nothing, the method, or the method and the path. |
| `HeaderLaws.HeaderLineRead` | src/core/http/http_parser.cpp:43-82 | A header line with any blanks around its value, none included: exactly the value is stored under exactly the name, a Content-Length is converted, and a throw leaves the field stored and the line unread. |
| `HeaderLaws.BlanksTrimmed` | src/core/http/http_parser.cpp:51-60 | Both trimming loops take away the blanks around a value and nothing else. |
| `HeaderLaws.ColonlessLineEndsHeaders` | src/core/http/http_parser.cpp:67-79 | Any line without a colon, empty or not, ends the headers; a body follows exactly when one was announced. |
| `HttpParsers.AdvanceSplit` | src/core/http/http_parser.cpp:21-98 | From any state, a call on a prefix and then one on its leftover with the rest equal one call on everything. |
| `HttpParsers.FeedIsOneCall` | src/core/http/http_parser.cpp:21-98 | From any settled parser and leftover, every split of the stream gives what one call gives. |
| `HttpParsers.NeedMoreIsSettled` | src/core/http/http_parser.cpp:21-98 | Calling again without new bytes changes nothing. |
| `HttpParsers.FragmentationIndependence` | src/core/http/http_parser.cpp:21-98 | State, request, length, outcome (with the exception) and unread bytes do not depend on how the stream is cut into reads, also inside a CRLF. |
| `HttpParsers.Progress` | src/core/http/http_parser.cpp:25-95 | A call consumes only a prefix; it asks for more exactly when no complete line is left or the body is short; it ends in `kGotAll` exactly when it has a request; a rejection consumes nothing. |
| `HttpParsers.RejectedForever` | src/core/http/http_parser.cpp:31-39 | A rejected request line is rejected again, with the same parser, however many bytes follow. |
| `HttpParsers.CoherenceKept` | src/core/http/http_parser.cpp:61-90 | A call that does not throw keeps the agreement of headers, length and body. |
| `HttpParsers.HeaderAndLengthAgree` | src/core/http/http_parser.cpp:61-90 | Over every split of every stream: the length is the value of the stored Content-Length (the last one, 0 without one), and a complete request has a body of that length. |
| `HttpParsers.HttpParser.constructor` | src/core/http/http_parser.cpp:10-13 | A fresh parser. |
| `HttpParsers.HttpParser.Reset` | src/core/http/http_parser.cpp:15-19 | The parser is as new. |
| `HttpParsers.HttpParser.ReadRequestLine` | src/core/http/http_parser.cpp:100-146 | In place: what the request-line function says, including fields set before a failure. |
| `HttpParsers.HttpParser.TrimmedValue` | src/core/http/http_parser.cpp:53-60 | Both trimming loops: the text after the colon without blanks at either end. |
| `HttpParsers.HttpParser.StoreHeader` | src/core/http/http_parser.cpp:50-66 | Stores the field, last value first; a Content-Length is converted afterwards, so it stays stored when the conversion throws. |
| `HttpParsers.HttpParser.ReadHeaderLine` | src/core/http/http_parser.cpp:47-77 | A field, or the end of the headers at any line without a colon. |
| `HttpParsers.HttpParser.RequestLineTurn` | src/core/http/http_parser.cpp:26-42 | One turn: the call is over with the specified result, or goes on from fewer bytes towards it. |
| `HttpParsers.HttpParser.HeaderTurn` | src/core/http/http_parser.cpp:43-82 | The same for a header line. |
| `HttpParsers.HttpParser.BodyTurn` | src/core/http/http_parser.cpp:83-94 | The body is taken once enough bytes are there. |
| `HttpParsers.HttpParser.ParseRequest` | src/core/http/http_parser.cpp:21-98 | The loop terminates from every state but `kGotAll`, and parser, outcome and unread bytes are those of the specification. |
| `HttpParsers.ParseStream` | src/core/http/http_parser.cpp:21-98 | The read loop with real parser and buffer objects: for every cut of the stream, the result of one call on the whole stream. |
| `RequestRoundTrips.FieldRead` | src/core/http/http_parser.cpp:47-66 | A colon-free name and a trimmed one-line value are read back from their line. |
| `RequestRoundTrips.FieldsRead` | src/core/http/http_parser.cpp:43-82 | So is a whole list of fields, in front of anything. |
| `RequestRoundTrips.BodyRead` | src/core/http/http_parser.cpp:67-94 | The empty line and the announced number of bytes complete the request and leave the rest. |
| `RequestRoundTrips.EnumerationStored` | src/core/http/http_request.h:46 | Fields listed in any order rebuild exactly the header map. |
| `RequestRoundTrips.RequestRoundTrip` | src/core/http/http_parser.cpp:21-146 | A printed well-formed request, in front of any bytes, is read back as itself and leaves exactly those bytes. |
| `RequestRoundTrips.Pipelining` | src/core/http/http_parser.cpp:15-98 | Any number of printed requests in a row: alternating `parseRequest` and `reset` yields exactly them, in order, then what the tail alone gives. |
| `RequestRoundTrips.PipeliningLeavesNothing` | src/core/http/http_parser.cpp:15-98 | Without a tail: exactly the requests, a fresh parser, nothing unread. |
| `HttpResponses.SortedFieldsEnumerate` | src/core/http/http_response.cpp:34-39 | The iteration lists every header once. |
| `HttpResponses.SortedFieldsAscend` | src/core/http/http_response.cpp:34-39 | It is strictly ascending in the order of `std::string`. |
| `HttpResponses.AppendHeaders` | src/core/http/http_response.cpp:34-39 | The loop appends exactly the header lines, in that order. |
| `HttpResponses.AppendToBuffer` | src/core/http/http_response.cpp:8-46 | The printed response, scratch buffer truncation included, goes behind what the buffer holds. |
| `HttpResponses.ShortRoundTrips` | src/core/http/http_response.cpp:19-45 | Keep-alive, well-formed headers, body below 10^13 bytes: headers, the two generated ones and the body are read back. |
| `HttpResponses.LongIsMangled` | src/core/http/http_response.cpp:29-31 | From 14 digits on the truncated line glues the next header to the Content-Length value, so the response is not read back. |
| `HttpResponses.ResponseRoundTrip` | src/core/http/http_response.cpp:19-45 | The round trip holds if and only if the body is shorter than 10^13 bytes. |
| `ResponseLaws.LessByFirstDifference` | src/core/http/http_response.cpp:34-39 | Header names are ordered by the first character in which they differ. |
| `ResponseLaws.LessThanLonger` | src/core/http/http_response.cpp:34-39 | A name comes before every longer one that begins with it. |
| `ResponseLaws.StatusLineRoundTrip` | src/core/http/http_response.cpp:19-23 | The first line of the printed bytes is read back as HTTP/1.1, the status and the message if and only if the number has at most 21 digits; the header section comes behind it. |
| `ResponseLaws.ClosingRoundTrip` | src/core/http/http_response.cpp:25-45 | A closing reply is read back as its headers and `Connection: close`, and then its body, of which no length is announced. |
| `ResponseLaws.BadRequestBytes` | src/core/http/http_server.cpp:56-63 | The bytes of the reply to a refused request line. |
| `Pollers.MaskBits` | src/core/net/channel.h:35-39 | Which bits each operation turns on and off, and that it leaves the others. |
| `Pollers.Channel.SetEvents` | src/core/net/channel.h:35-39 | The new mask is in the kernel, except that emptying the mask of a registered channel takes the descriptor out; `channels_` gains the channel. |
| `Pollers.Channel.RemoveFrom` | src/core/net/channel.cpp:27-29 | The descriptor leaves `channels_` and the kernel; the channel is new again. |
| `Pollers.Channel.Apply` | src/core/net/channel.h:35-56 | Any operation: the mask it asks for, the exact case in which the descriptor is registered afterwards, and no other descriptor touched. |
| `Pollers.EPollPoller.UpdateChannel` | src/core/reactor/epoll_poller.cpp:61-82 | Interest-set agreement is kept: status ADDED exactly for descriptors in the kernel with the channel's mask, `channels_` exactly the ADDED and DELETED ones. |
| `Pollers.EPollPoller.RemoveChannel` | src/core/reactor/epoll_poller.cpp:85-97 | Agreement is kept and the descriptor is gone. |
| `Pollers.EPollPoller.EpollCtl` | src/core/reactor/epoll_poller.cpp:100-121 | ADD only of an absent descriptor, MOD and DEL only of a present one: preconditions every call meets. |
| `Pollers.Interleave` | src/core/reactor/epoll_poller.cpp:61-121 | Any interleaving of operations on any channels: no illegal `epoll_ctl`, agreement at the end, and each mask in the kernel is what the channel's own operations make it. |
| `Pollers.InterleaveFromNew` | src/core/reactor/epoll_poller.cpp:13-121 | The same from a new poller and new channels on distinct descriptors. |
| `TcpConnections.SendInLoopConserves` | src/core/net/tcp_connection.cpp:95-142 | Wire and waiting bytes are the accepted messages in order, for every answer of `write`. |
| `TcpConnections.HandleWriteConserves` | src/core/net/tcp_connection.cpp:215-247 | The same for a drain with any short write. |
| `TcpConnections.StepKeepsGood` | src/core/net/tcp_connection.cpp:45-263 | Every step keeps conservation, exact writing interest, half-close after drain and the trace shape, and never moves the state backward. |
| `TcpConnections.RunKeepsGood` | src/core/net/tcp_connection.cpp:45-263 | So does every run from any such state. |
| `TcpConnections.EveryRunIsGood` | src/core/net/tcp_connection.cpp:45-263 | Every run of a connection from its creation. Wire and waiting bytes are the accepted messages, all of those offered when no EPIPE or ECONNRESET came; before `handleClose` writing interest is on exactly while bytes wait and the one half-close happens exactly when, after `shutdown`, everything accepted is on the wire; one up, messages, at most one down. |
| `TcpConnections.WriteCompleteIsNotEarly` | src/core/net/tcp_connection.cpp:112-115 | A write-complete callback is queued only when everything accepted is on the wire. |
| `TcpConnections.HalfCloseAfterCloseCutsBytes` | src/core/net/tcp_connection.cpp:249-263 | A run in which `shutdown` after `handleClose` half-closes with a byte unsent. |
| `TcpConnections.HalfCloseCutsExactly` | src/core/net/tcp_connection.cpp:145-158 | A half-close cuts bytes if and only if `shutdown` itself makes it with bytes in the output buffer; then `handleClose` came before. |
| `TcpConnections.NothingAcceptedAfterShutdown` | src/core/net/tcp_connection.cpp:45-89 | After `shutdown` on the loop's thread no message is accepted in any continuation. |
| `TcpConnections.Socket.Write` | src/core/net/tcp_connection.cpp:109 | The kernel's side: it records the call and puts the first bytes offered on the wire, as many as it answers. |
| `ConnectionLaws.WireIsWhatTheKernelTook` | src/core/net/tcp_connection.cpp:95-142 | Over every run the wire is, call of `write` by call, the first bytes offered, as many as the kernel answered; what waits is the accepted messages without these. |
| `ConnectionLaws.DrainsEmptyTheBuffer` | src/core/net/tcp_connection.cpp:215-247 | Whatever the short writes: drains of an open, writing connection whose answers add up to what waits empty the buffer, put all of it on the wire and turn the interest off. |
| `ConnectionLaws.LedgerIsKept` | src/core/net/tcp_connection.cpp:45-263 | Over every run the state, the callbacks with the bytes of each message, the messages offered and the unread input are what the steps alone say. |
| `ConnectionLaws.DroppedExactly` | src/core/net/tcp_connection.cpp:103-126 | A message is dropped if and only if it is written directly and the write fails with EPIPE or ECONNRESET. |
| `ConnectionLaws.QueuedExactly` | src/core/net/tcp_connection.cpp:112-136 | A step queues a write-complete callback exactly when the kernel took all it was offered, and a high-water callback exactly when the waiting bytes reach the mark from below. |
| `TcpConnections.TcpConnection.InLoopSend` | src/core/net/tcp_connection.cpp:95-142 | `sendInLoop` on the connection, its output buffer, channel and poller does what the specification says to each of them. |
| `TcpConnections.TcpConnection.TryWrite` | src/core/net/tcp_connection.cpp:103-126 | The direct write: only with nothing waiting; the callback when it takes all; which errors are faults. |
| `TcpConnections.TcpConnection.QueueInOutput` | src/core/net/tcp_connection.cpp:129-141 | The rest goes to the output buffer with writing interest on, and the high-water mark is reported when it is crossed. |
| `TcpConnections.TcpConnection.OnWritable` | src/core/net/tcp_connection.cpp:215-247 | `handleWrite` in place. |
| `TcpConnections.TcpConnection.FinishDrain` | src/core/net/tcp_connection.cpp:227-239 | Its tail once nothing waits: no more writing interest, the callback, and the half-close of a connection that was shut down. |
| `TcpConnections.TcpConnection.InLoopShutdown` | src/core/net/tcp_connection.cpp:153-158 | `shutdownInLoop`. |
| `TcpConnections.TcpConnection.SendMessage` | src/core/net/tcp_connection.cpp:45-73 | `send` of bytes. |
| `TcpConnections.TcpConnection.SendBuffer` | src/core/net/tcp_connection.cpp:75-89 | `send` of a buffer, which is emptied exactly when the connection is connected. |
| `TcpConnections.TcpConnection.CloseWrite` | src/core/net/tcp_connection.cpp:145-151 | `shutdown`. |
| `TcpConnections.TcpConnection.Establish` | src/core/net/tcp_connection.cpp:165-177 | `connectEstablished`. |
| `TcpConnections.TcpConnection.Destroy` | src/core/net/tcp_connection.cpp:179-191 | `connectDestroyed`: down only from connected, and off the poller in every case. |
| `TcpConnections.TcpConnection.OnClose` | src/core/net/tcp_connection.cpp:249-263 | `handleClose`, without the callback into the server. |
| `TcpConnections.TcpConnection.OnReadable` | src/core/net/tcp_connection.cpp:193-213 | `handleRead`: bytes and a message, a close, or nothing. |
| `HttpServers.OnMessageInStep` | src/core/http/http_server.cpp:48-86 | After a read the requests served so far and what the parser still has to say about the unread bytes make up the parse of the whole stream, however it goes on. |
| `HttpServers.OnMessageReplies` | src/core/http/http_server.cpp:48-86 | The replies offered are those to the requests served, up to the first closing one, and at most one 400. |
| `HttpServers.PlayKeepsSound` | src/core/http/http_server.cpp:48-86 | Over every run of reads, drains and closes: these and the connection's invariants; never in `kGotAll`. |
| `HttpServers.ServerAnswersTheStream` | src/core/http/http_server.cpp:48-86 | End to end: whatever the fragmentation and the short writes, the requests handed to the callback are the first requests of the received stream (all of them when a call threw), and the bytes sent and waiting are the replies to them, in order, with one 400 after a refused line. |
| `HttpServers.AllServedUnlessOneWaits` | src/core/http/http_server.cpp:68-85 | Every complete request received has been served exactly when the unread bytes do not begin with another. |
| `HttpServers.SecondRequestInOneReadWaits` | src/core/http/http_server.cpp:48-86 | Of any two well-formed requests in one read the second stays unserved in the buffer. |
| `HttpServers.NothingAfterFinalResponse` | src/core/http/http_server.cpp:52-81 | After a 400 or a closing reply no byte is accepted any more, so there is at most one 400, and a refused line stays refused. |
| `SessionLaws.SessionIsRun` | src/core/http/http_server.cpp:48-86 | Every run of a session is, to its connection, a run of reads, takings, sends, shutdowns and drains; so its wire is what the kernel took and the rest is in the ledger. |
| `HttpSessions.HttpSession.constructor` | src/core/http/http_server.cpp:41-46 | An established connection gets a fresh parser. |
| `HttpSessions.HttpSession.SendReply` | src/core/http/http_server.cpp:73-81 | Print into a scratch buffer, send it, shut down after a closing reply. |
| `HttpSessions.HttpSession.ParseInput` | src/core/http/http_server.cpp:52 | The parser takes its bytes from the input buffer; the rest of the connection is untouched. |
| `HttpSessions.HttpSession.HandleMessage` | src/core/http/http_server.cpp:48-86 | `onMessage` on the objects does what the specification says, and never leaves the parser in `kGotAll`. |
| `HttpSessions.HttpSession.OnReadEvent` | src/core/net/tcp_connection.cpp:193-202 | `handleRead` and `onMessage` behind it: the objects go from the model's state before the read to the one after it. |
| `HttpSessions.HttpSession.OnEvent` | src/core/net/tcp_connection.cpp:193-263 | The same for any event of the connection. |
| `HttpSessions.NewSession` | src/core/net/tcp_connection.cpp:165-177 | Real poller, channel, buffers, connection and parser in the state of an accepted connection. |
| `HttpSessions.Serve` | src/core/http/http_server.cpp:48-86 | The end-to-end theorem of the objects: driven through any possible events (while each read fits what `readFd` offers) they serve the first requests of the bytes received, and wire and output buffer hold the replies. |
| `EventLoops.StepKeepsSound` | src/core/reactor/event_loop.cpp:63-142 | Every step of every thread keeps queue, batches and wakeups in order. |
| `EventLoops.PlayKeepsSound` | src/core/reactor/event_loop.cpp:63-142 | So does every interleaving. |
| `EventLoops.TaskQueue` | src/core/reactor/event_loop.cpp:81-96 | Functors that ran, then the rest of the batch, then the pending ones are all functors ever queued, in order; each ran once, in the batch taken next after it was queued, so never in the batch that queued it. |
| `EventLoops.PollWithPendingIsWoken` | src/core/reactor/event_loop.cpp:63-142 | No lost wakeup: about to poll with functors pending, the counter is positive or a thread is on its way to increment it, unless all of them were queued by the loop's own thread outside the loop. |
| `EventLoops.QueuedBeforeLoopIsNotAnnounced` | src/core/reactor/event_loop.cpp:115-124 | The exception occurs. |
| `EventLoops.SignalsAreKept` | src/core/reactor/event_loop.cpp:54-142 | Every interleaving: the counter is the number of wakeups since they were last read, a push owes one exactly from another thread or a running functor, and the loop ends after a batch exactly when told to quit since it was entered. |
| `EventLoops.EventLoop.PushFunctor` | src/core/reactor/event_loop.cpp:116-119 | The critical section of `queueInLoop`. |
| `EventLoops.EventLoop.Wakeup` | src/core/reactor/event_loop.cpp:127-133 | The increment of the counter. |
| `EventLoops.EventLoop.QueueInLoop` | src/core/reactor/event_loop.cpp:115-124 | The functor is last in the pending list, and the counter goes up when another thread or a functor queues. |
| `EventLoops.EventLoop.TakeBatch` | src/core/reactor/event_loop.cpp:82-89 | Flag and swap: the batch is all that was pending, and nothing is pending. |
| `EventLoops.EventLoop.DoPendingFunctors` | src/core/reactor/event_loop.cpp:81-96 | Exactly the functors pending at the swap run, in order; exactly those queued meanwhile, by the functors and by any other threads, are pending afterwards, in order; the interleaved machine can do this. |
| `EventLoops.EventLoop.RunRound` | src/core/reactor/event_loop.cpp:63-76 | One turn of the loop: what was pending and what handlers, timers and other threads queued runs, in order; what is queued meanwhile is pending afterwards. |
| `EventLoops.EventLoop.Run` | src/core/reactor/event_loop.cpp:54-79 | `loop()` for any number of turns or until `quit`: the functors run are exactly those queued in time, in order. |
| `EventLoops.EventLoop.Quit` | src/core/reactor/event_loop.cpp:98-105 | The flag, and a wakeup from another thread. |
| `EventLoops.RunNewLoop` | src/core/reactor/event_loop.cpp:54-142 | A new loop, functors queued before it runs, and any turns: a state the interleaved machine reaches, with exactly the functors of these turns run and pending. |
| `SenderOrders.StepKeepsSound` | src/core/net/tcp_connection.cpp:45-101 | Every step of any thread keeps, for each thread, what was taken, what waits and what is in its hand equal to what it sent. |
| `SenderOrders.PerSenderOrder` | src/core/net/tcp_connection.cpp:45-101 | Every interleaving, with any faults and any racing shutdowns: each message enters the stream whole, and the messages of a thread that entered are among those it sent, in call order. |
| `SenderOrders.AllEnteredWhenNothingWaits` | src/core/net/tcp_connection.cpp:45-101 | Every interleaving: all of a thread's messages are in the stream if and only if none is lost, queued or in its hand. |
| `SenderPrefixes.FirstOnesExactly` | src/core/net/tcp_connection.cpp:95-150 | The entered messages of a thread are the first of those it sent if and only if nowhere in the run one of them is dropped by a direct write that fails for good, or is given up on a connection that is down with a store over `kDisconnected` behind it, and then another of them enters. |
| `SenderPrefixes.GuardedOrder` | src/core/net/tcp_connection.cpp:98-123 | So they are in every run without a store over `kDisconnected` in which no direct write of the thread's own messages fails with EPIPE or ECONNRESET. |
| `SenderPrefixes.NothingEntersAgain` | src/core/net/tcp_connection.cpp:103-137 | While every direct write fails for good, nothing enters an idle connection, whoever sends. |
| `SenderPrefixes.FatalOrder` | src/core/net/tcp_connection.cpp:98-150 | When such an error lasts once it came, only a store over `kDisconnected` can break the order of any thread. |
| `SenderHalfCloses.HalfCloseAfterDrain` | src/core/net/tcp_connection.cpp:145-158 | Every interleaving, whoever calls `shutdown`: before `handleClose` writing interest is on exactly while bytes wait, and every half-close finds all accepted bytes on the wire. |
| `SenderHalfCloses.HalfCloseSends` | src/core/net/tcp_connection.cpp:145-158 | At every half-close the wire holds exactly the messages that entered if and only if nothing waits, which is so before `handleClose`; a thread's sends are all among them if and only if none is lost, queued or in its hand. |
| `SenderHalfCloses.HalfCloseByGuard` | src/core/net/tcp_connection.cpp:145-158 | A step half-closes if and only if it is a `shutdownInLoop` task or a `shutdown` of a connected connection that finds no writing interest, or a drain that empties the buffer of a connection that was shut down. |
| `SenderHalfCloses.HalfCloseCount` | src/core/net/tcp_connection.cpp:145-158 | Every interleaving: the write side is shut down exactly as often as one of these tests passes. |
| `SenderHalfCloses.HalfClosesOnce` | src/core/net/tcp_connection.cpp:145-158 | At most once, when only the loop's thread calls `shutdown` and no message taken after the half-close leaves bytes to wait. |
| `SenderRuns.OneShutdownHalfClosesTwice` | src/core/net/tcp_connection.cpp:145-158 | A run in which one `shutdown` from another thread half-closes twice: the drain does it before the task. |
| `SenderRuns.FaultBreaksOrder` | src/core/net/tcp_connection.cpp:107-126 | A run in which a direct write fails with EPIPE and a later message of the same thread enters. |
| `SenderRuns.OverwriteBreaksOrder` | src/core/net/tcp_connection.cpp:145-150 | A run without any fault in which a thread's first message is lost and its second enters, because another thread's `shutdown` stores `kDisconnecting` over `kDisconnected`. |
| `SenderRuns.ForeignShutdownOvertakesSend` | src/core/net/tcp_connection.cpp:145-158 | A run in which a thread sends, shuts down, and the write side is closed before its message is taken. |
| `TcpServers.ReportRuns` | src/core/net/channel.cpp:39-58 | A report runs the close callback iff it has a hang-up without ordinary data, the error callback iff an error, the read callback iff ordinary or urgent data, the write callback iff room to write; each once, in this order. |
| `TcpServers.ReportsInTurn` | src/core/reactor/event_loop.cpp:69-71 | The reports of one `poll` are handled one after the other. |
| `ServerDispatches.ReportsAreHandled` | src/core/reactor/event_loop.cpp:66-75 | Every interleaving: before a loop gets to its functors, each callback that the poller's reports call for has run; so ordinary data has run the read callback. |
| `ServerDispatches.StepFollows` | src/core/net/tcp_connection.cpp:45-263 | Every step of the server is to each connection nothing, or the one handler, task or store whose turn it is. |
| `ServerDispatches.StepQueues` | src/core/net/tcp_server.cpp:63-130 | Every step takes from each loop's queue its own task at the head, and puts at the end exactly the establishment, removal, destruction, send or shutdown that belongs there. |
| `ServerDispatches.EveryStreamIsConserved` | src/core/net/tcp_connection.cpp:95-247 | Every interleaving of all loops and threads: of each connection wire and waiting bytes are the accepted messages, writing interest is exact and half-closes come after the drain, before `handleClose`. |
| `TcpServers.StepKeepsSound` | src/core/net/tcp_server.cpp:63-130 | Every step of every loop and thread keeps tasks and callbacks matched to connections that can take them. |
| `TcpServers.Lifecycle` | src/core/net/tcp_connection.cpp:165-263 | Every interleaving of base loop, I/O loops and other threads: the assertions of `connectEstablished` and `handleClose` never fail, and each trace is one up, messages, at most one down. |
| `TcpServers.BackwardOnlyByForeignShutdown` | src/core/net/tcp_connection.cpp:145-191 | From any reachable state a step moves a connection's state backward if and only if another thread's `shutdown`, which tested the state earlier, stores it over `kDisconnected`. |
| `ServerRuns.StateMovesBackward` | src/core/net/tcp_connection.cpp:145-150 | A run to such a step: tested while connected, stored after the connection was destroyed. |
| `TcpServers.AcceptKeepsSound` | src/core/net/tcp_server.cpp:63-108 | A new connection is established at once on the base loop, or by the one task queued for it. |
| `ServerObjects.TcpServer.constructor` | src/core/net/tcp_server.cpp:14-31 | No connections; the first number is 1. |
| `ServerObjects.TcpServer.AcceptConnection` | src/core/net/tcp_server.cpp:63-108 | A number no connection has had, in the map, with its establishing task at home. |
| `ServerObjects.TcpServer.RemoveConnectionInLoop` | src/core/net/tcp_server.cpp:116-130 | Out of the map, with the destruction queued at home; the returned number is 1 exactly when it was there. |
| `ServerObjects.TcpServer.RemoveConnection` | src/core/net/tcp_server.cpp:110-114 | At once on the base loop, through its queue from any other. |
| `ServerObjects.TcpServer.OnClosed` | src/core/net/tcp_server.cpp:110-130 | The callback of any loop that ends in `handleClose`, with the server's part of it, is the step of the model. |
| `ServerObjects.TcpServer.OnRemovalTask` | src/core/net/tcp_server.cpp:116-130 | So is the removal task another loop queued. |
| `ServerObjects.RunServer` | src/core/net/tcp_server.cpp:63-130 | Along any run of the loops and other threads the server object, called as the run calls it, keeps the map and the numbering of the model. |
| `ConnectionRemovals.StepKeepsBalanced` | src/core/net/tcp_server.cpp:110-130 | Each `handleClose` is matched by one removal, done or waiting; the map holds exactly the connections never removed. |
| `ConnectionRemovals.RemovalCount` | src/core/net/tcp_server.cpp:116-130 | Every interleaving: the map holds exactly the connections none of whose closings has been carried out, and the assertion on the erased count has failed if and only if two closings of one connection have. |
| `ConnectionRemovals.ClosedOnce` | src/core/net/tcp_server.cpp:110-130 | Every interleaving in which no report of the poller gives a connection two callbacks that can close and no message is left waiting on a closed one: `handleClose` runs exactly once for each closed connection, and the assertion never fails. |
| `ConnectionRemovals.SendAfterCloseRegisters` | src/core/net/tcp_connection.cpp:95-142 | On a connection `handleClose` took off the poller with nothing waiting, a send puts it back if and only if bytes are left to wait. |
| `ServerRuns.RemovalMissesAfterLateSend` | src/core/net/tcp_server.cpp:116-130 | A run in which the assertion fails: a send that passed its test before the shutdown is taken after the destruction. |
| `ServerRuns.RemovalMissesAfterOneReport` | src/core/net/channel.cpp:39-54 | A run in which the assertion fails without any send or other thread: one report of a hang-up and urgent data without ordinary data. |
| `Timers.InOrderLists` | src/core/utils/timer.h:55-63 | The entries in iteration order: each once, ascending by deadline and address. |
| `Timers.AddKeepsSound` | src/core/utils/timer.cpp:34-47 | Adding keeps one entry per timer under its deadline and makes the timer cancellable. |
| `Timers.CancelWorks` | src/core/utils/timer.cpp:49-62 | `cancel` of any live timer finds it and removes exactly it from both indexes. |
| `Timers.ProcessKeepsSound` | src/core/utils/timer.cpp:65-99 | A round keeps one entry per timer under its current deadline, and every timer cancellable by its id. |
| `Timers.TimerRound` | src/core/utils/timer.cpp:65-99 | Exactly the timers scheduled strictly before now run, once each, in deadline order; then the schedule is the rest, the re-armed repeats and the timers added meanwhile, with unchanged intervals. |
| `Timers.RequestsInTurn` | src/core/utils/timer.cpp:83-86 | No timer that a callback adds is left out, and they get their ids in firing order. |
| `Timers.IntervalsAsAsked` | src/core/utils/timer.cpp:34-47 | Over every run of a new manager the k-th timer asked for has, while it is there, the interval asked for. |
| `Timers.RearmedExactly` | src/core/utils/timer.cpp:88-98 | After any run and a round in which the timer with id k fired it is scheduled again, at its restart plus the interval asked for, if and only if that is positive; otherwise it is gone. |
| `Timers.AgreementKept` | src/core/utils/timer.cpp:78-93 | A round keeps the exact agreement of the two indexes if and only if no timer but the first ever added fires. |
| `Timers.EveryRunIsSound` | src/core/utils/timer.cpp:34-99 | Over every run of adds, cancels and rounds of a new manager the indexes stay well formed and every timer cancellable. |
| `Timers.CancelledNeverFires` | src/core/utils/timer.cpp:49-99 | A live timer cancelled after any run of a new manager does not fire in any continuation. |
| `Timers.AgreementOfRuns` | src/core/utils/timer.cpp:34-99 | After any run of a new manager the two indexes agree exactly if and only if no timer but the first ever added has fired in it. |
| `Timers.SecondTimerLeavesStray` | src/core/utils/timer.cpp:78-93 | A run after which they do not agree. |
| `Timers.ExpiredLists` | src/core/utils/timer.cpp:71-72 | The entries up to `lower_bound(Entry(now, nullptr))` are exactly those with a deadline strictly before now, in order. |
| `Timers.TimerManager.Add` | src/core/utils/timer.cpp:34-47 | `addTimer` in place; the id is the next number. |
| `Timers.TimerManager.CancelTimer` | src/core/utils/timer.cpp:49-62 | `cancel` in place. |
| `Timers.TimerManager.RunCallbacks` | src/core/utils/timer.cpp:83-86 | The callbacks run in firing order, each adding its timers. |
| `Timers.TimerManager.EraseIdZero` | src/core/utils/timer.cpp:78-81 | The loop erases the fired timers under id 0 only. |
| `Timers.TimerManager.RestartOrDelete` | src/core/utils/timer.cpp:88-98 | Repeating timers are re-armed from the clock, the others deleted. |
| `Timers.TimerManager.ProcessTimers` | src/core/utils/timer.cpp:65-99 | `processTimers` in place does what the specification of a round says, and runs the expired timers in order. |

## Left out

- Buffer::shrink and Buffer::prepend: no callers; `shrink` keeps the contents only when nothing was consumed before, and `prepend` breaks the lower bound of the reader index.
- findCRLF(start) and findEOL: read-only searches with no caller here.
- Socket, Acceptor, InetAddress, the logger, TCP options, addresses and names: foreign calls and data with no part in the state machines.
- The real `epoll_wait` (its result list and its growth, EINTR) and `epoll_ctl` failures other than for a present or absent descriptor: what `poll` reports is a parameter. POLLRDHUP and POLLNVAL are never subscribed to or reported.
- EventLoops.EventLoop.Run: `loop()` runs until asked to stop, so as a method it is given the turns it makes. Within a turn each functor queued is announced before the next is queued, and none is queued between the flag and the swap; all interleavings are in `TaskQueue` and `PollWithPendingIsWoken`.
- `EventLoopThread`, the thread pool's start-up and its round robin: a new connection may get any loop.
- EventLoops.EventLoop.Wakeup: the counter is incremented as intended; that an eventfd refuses the two-byte write of the code is not modelled.
- ServerObjects.RunServer: the object is the base loop's view of the server; the loops and the connections on other threads around it are a value.
- TcpConnections.TcpConnection.OnClose: without the close callback, which is in `ServerObjects.TcpServer.OnClosed`.
- HttpSessions.Serve: stops at a read that would not fit what `readFd` offers, which a kernel does not deliver.
- `std::shared_ptr`, `tie` and `weak_ptr`, destructors (with the assertion at `tcp_connection.cpp:42`, which the state after `handleClose` can break), and reuse of an address by the allocator: objects have an identity for ever. Timer addresses are an injective function of the order of creation.
- Undefined behaviour of the unsynchronised `state_`: a load or a store is one step.
- The default HTTP callback, which calls `onRequest` again without end: the callback is an arbitrary function of the request.
- `cancel` inside a timer callback, and `cancel` of a timer that is gone: undefined in the code. `Timers.Finish` does nothing for an object that is not there, which does not happen.
- Chunked transfer coding, case-insensitive field names and line folding of RFC 9112: not in the code.
- Setters and getters of `HttpResponse` and `HttpRequest`: a response is a value with the fields they set, a request a record updated by the parser.
- The integer width of indices, ids and lengths, except where the code converts text: sizes are bounded by memory, and `std::stoul` is modelled with its 64-bit range.
