# RTSP relay: a verified model

The relay pulls RTSP streams from upstream servers and pushes every packet, re-framed, to any number of
players. This project models its byte path and the two state machines that set the path up, and proves what
holds over every run: upstream socket bytes, incremental decoding, fan-out, re-framing, per-connection output
queue.

| file | module | what it models |
|---|---|---|
| `text.dfy` | `Text` | byte strings, searching, decimal text, `atoi` and `atoll` |
| `byte_buffer.dfy`, `ring_buffer.dfy` | `Buffers`, `Ring` | the growable buffer and the ring (`src/buffer.h`), in place on arrays |
| `rtsp_message.dfy`, `rtsp_builders.dfy` | `RtspProtocol`, `RtspBuilders` | messages, printing, parsing, the ready-made requests and responses |
| `rtsp_codec_laws.dfy`, `rtsp_parser_laws.dfy`, `rtsp_deliverable.dfy` | `CodecLaws`, `ParserLaws`, `Deliverable` | round trips, and which messages survive them |
| `foreign_heads.dfy` | `ForeignHeads` | messages that other programs wrote: what the parser reads in them |
| `rtp_packet.dfy` | `Rtp` | RTP packets (RFC 3550, sections 5.1 and 5.3.1) |
| `framing.dfy` | `Framing` | the mixed stream of `$` frames (RFC 2326, section 10.12) and messages, and its drain loop |
| `rtsp_source.dfy`, `rtsp_session.dfy` | `Source`, `Session` | the upstream client and the server side of a player |
| `source_laws.dfy`, `negotiation_laws.dfy` | `SourceLaws`, `NegotiationLaws` | every request, client and timer of a source; what a player's requests get and leave behind |
| `handshake.dfy`, `reply_matching.dfy` | `Handshake`, `ReplyMatching` | one source against one session over byte pipes: chained relays; which replies move a source on |
| `tcp_connection.dfy`, `task_queue.dfy` | `Connection`, `TaskQueue` | partial, blocked and failed writes; sends posted by other threads |
| `timers.dfy`, `event_loop.dfy` | `Timers`, `Loop` | timers over every run, and the event loop object |
| `relay_manager.dfy`, `table_laws.dfy`, `lock_order.dfy` | `Relay`, `TableLaws`, `LockOrder` | streams, sinks and the fan-out; what each step does to the table; the mutexes of all threads |
| `end_to_end.dfy`, `whole_stream.dfy` | `EndToEnd`, `WholeStream` | all of it together: upstream bytes in, one player's bytes out |
| `split_packet.dfy` | `SplitPacket` | a run of two threads that puts an answer inside a packet |

How to read it. Objects that the program updates in place are classes; each of their methods is proved equal to
a function on values (`View() == Next(old(View()), …)`), and the laws are lemmas about those functions. Threads,
sockets, clocks and clients appear as nondeterministic steps: a socket write may take any part, block or fail; a
read may deliver any chunk; the theorems hold for every sequence of steps. The order in which a hash map gives
its headers is a parameter, so every law holds for all orders.

Main results:

- `EndToEnd.Transparency` and `WholeStream.EveryFrameArrives`: whatever the chunking, the interleaving and the
  socket do, a player's bytes decode to exactly the packets it was owed, in order, on its own channel.
  `WholeStream.ChainedRelays` puts two relays behind each other.
- `Framing.ChunkIndependence`, `Framing.UniqueDecoding` and `Framing.PrefixDecoding`: decoding does not depend on
  how the stream is cut, and never confuses two streams.
- `ParserLaws.RoundTripExactly`: for which messages printing and parsing is the identity, as an equivalence.
- `ForeignHeads.ForeignParsed`: what is read in any head with any spacing, of any names and values.
- `Handshake.ChainedHandshake`, `Handshake.ExchangeAdvances` and `Handshake.PlayingReachable`: two relays in a chain
  agree, get on, and can get to playing.
- `SourceLaws.RunSends` and `SourceLaws.LifeOfRun`: in every run, exactly which requests a source sends, header by
  header, and which clients and timers it makes.
- `NegotiationLaws.PacketsOnChannelAskedFor` and `TableLaws.NewPlayerServed`: the packets of a player go out on the
  channel it asked for, and a new player does get them.
- `Relay.FanOutSafety` with `Relay.OrderIsNeeded`: who is a sink of what, and the exact condition on clients.
- `Timers.FiresOnTime` and `Loop.EventLoop.ProcessTimers`: when every timer runs, in every run of the real loop.
- `LockOrder.NoDeadlock` with `LockOrder.FanOutAlone`: no deadlock with players on loops of their own, and exactly
  when a shared loop deadlocks with itself.

Where the program falls short of what it seems to promise, the model keeps the program, and lemmas say what happens
and exactly when:

- An answer between the two sends of a packet: `Framing.SplitFrame`, `Framing.SplitPacketIsLost`,
  `EndToEnd.AnswerBetween`, and a run that does it, `SplitPacket.SplitIsReachable`.
- Replies are not matched to requests: `Handshake.RepliesAreNotMatched`; `ReplyMatching.FollowsExactly` has the condition
  under which the source follows the right ones.
- Requests the server does not reject: `Relay.OrderIsNeeded` has the condition; `Relay.PlayTwiceDuplicates`,
  `Relay.DescribeWhilePlayingLeaks` and `Relay.LeakStays` what happens otherwise.
- The comment at `src/buffer.h:169` says that a read of overwritten data returns 0; the code skips whole laps without
  notice: `Ring.PromiseAtOverrun`, with witnesses `Ring.OverrunReturnsBytes` and `Ring.FullRingReturnsNothing`.
- Cancelling a timer from a callback may come too late: `Timers.CancelExactly`.
- A malformed message stops a connection for good: `Framing.BlocksForGood`, `ParserLaws.ThrowsExactly`.
- Without IO threads a fan-out can deadlock with itself: `LockOrder.AlwaysGetsThrough`.

`dafny verify dfyconfig.toml` checks everything.

## Model

| member | source | states |
|---|---|---|
| `Text.FindSpec` | `src/buffer.h:87-97` | a search finds the first occurrence at or after the start, and none exactly when there is none |
| `Text.FindStable` | `src/buffer.h:87-97` | an occurrence that was found stays the first one however many bytes arrive behind it |
| `Text.IntTextNumber` | `src/rtsp_protocol.cpp:206` | printing an integer and reading it back gives the integer, whatever non-digit follows |
| `Buffers.MemoryIsPeak` | `src/buffer.h:49-59` | after any operations the storage is the larger of its first size and the highest fill ever reached |
| `Buffers.ContentIsSuffix` | `src/buffer.h:35-84` | after any operations the content is the input without a front part: nothing reordered, repeated or lost inside |
| `Buffers.ByteBuffer.Skip` | `src/buffer.h:35-38` | drops up to n bytes at the front, keeps the rest and the storage, and leaves the read position at 0 |
| `Buffers.ByteBuffer.Compact` | `src/buffer.h:121-132` | moves the unread bytes to the front of the storage without changing them |
| `Buffers.ByteBuffer.EnsureWritable` | `src/buffer.h:49-59` | afterwards that much room is free; the storage grows exactly when compacting would not do, and the content stays |
| `Buffers.ByteBuffer.Append` | `src/buffer.h:62-66` | the content grows by the bytes, the storage never more than needed, every copy inside it |
| `Buffers.ByteBuffer.Peek` | `src/buffer.h:73-77` | gives the first bytes of the content, as many as asked for and available |
| `Buffers.ByteBuffer.Read` | `src/buffer.h:80-84` | what is read and what stays is together the old content |
| `Buffers.ByteBuffer.FindPattern` | `src/buffer.h:87-97` | the first place of the pattern in the content, -1 when there is none or the pattern is empty |
| `Buffers.ByteBuffer.ReadLine` | `src/buffer.h:106-112` | takes the first line and its line break, or nothing while no line is complete |
| `Buffers.ByteBuffer.ClearAll` | `src/buffer.h:115-118` | empties the content and keeps the storage |
| `Ring.RingBuffer.Write` | `src/buffer.h:151-166` | a write below the capacity is appended to the stream, a larger one refused; every cell holds its newest byte |
| `Ring.RingBuffer.Read` | `src/buffer.h:170-194` | returns min(len, lag mod capacity) bytes, the stream from the reader's position, whole laps skipped; what that means after an overrun and at a full lap |
| `Ring.RingBuffer.CellHoldsNewest` | `src/buffer.h:151-166` | cell p mod capacity holds stream byte p, for each of the last capacity positions |
| `Ring.ReadersSeeTheStream` | `src/buffer.h:151-194` | for one writer and any readers, started anywhere in the stream, in every run: a reader misses whole laps or nothing, and one that missed nothing got its part of the stream |
| `Ring.FaithfulReader` | `src/buffer.h:151-194` | a reader that never lags a full capacity got exactly the accepted writes from where it started, no loss, repetition or reordering |
| `Ring.MissesOnlyWhenLapped` | `src/buffer.h:168-182` | what a reader never gets to see grows at a read exactly when it lags by the capacity or more |
| `Ring.OverwrittenExactly` | `src/buffer.h:151-166` | a later byte has taken the place of byte p exactly when the writer is more than a whole lap ahead of p |
| `Ring.PromiseAtOverrun` | `src/buffer.h:168-181` | asked for an overwritten byte, a read returns 0 exactly when nothing was asked for or the lag is whole laps; at a lag of exactly one lap it returns 0 with nothing overwritten |
| `Ring.OverrunReturnsBytes` | `src/buffer.h:168-194` | an input on which a read of an overwritten byte returns another byte |
| `Ring.FullRingReturnsNothing` | `src/buffer.h:168-181` | an input on which nothing is overwritten and a read returns nothing |
| `CodecLaws.MethodRoundTrip` | `src/rtsp_protocol.cpp:12-38` | every method's name reads back as the method, except those without a name |
| `CodecLaws.RoundTrip` | `src/rtsp_protocol.cpp:197-316` | a well-formed message printed in any header order and followed by anything parses to itself, consuming exactly its bytes, also over a stale Content-Length; one of unknown kind is printed, and read, as a response |
| `CodecLaws.NeverLikeAPacket` | `src/rtsp_protocol.cpp:197-206` | no printed message begins with `$`, so a reader never takes one for a packet |
| `ParserLaws.RoundTripExactly` | `src/rtsp_protocol.cpp:197-316` | among messages with numbers in range and no line break in a Content-Length entry beside a body, printing and parsing succeeds in this way exactly for the well-formed ones |
| `ParserLaws.ParsedIsWellFormed` | `src/rtsp_protocol.cpp:228-316` | whatever the parser accepts is well-formed and has its numbers in range |
| `ParserLaws.ReprintRoundTrip` | `src/rtsp_protocol.cpp:197-316` | a message that was parsed with a CSeq below 2^31, printed again, parses to the same start line, headers and body, CSeq and Content-Length in printed form |
| `ParserLaws.ParseStable` | `src/rtsp_protocol.cpp:228-316` | once the parser has an answer, more bytes do not change it |
| `ParserLaws.ParsedBounds` | `src/rtsp_protocol.cpp:228-316` | a parsed message takes at least its header end and at most what there is |
| `ParserLaws.ParsedFromItself` | `src/rtsp_protocol.cpp:228-316` | a message parses from exactly the bytes it consumes |
| `ParserLaws.BlockedForever` | `src/rtsp_protocol.cpp:239-304` | a complete head is never answered, whatever arrives later, exactly when its start line is malformed or its Content-Length is further below zero than the head is long |
| `ParserLaws.ThrowsExactly` | `src/rtsp_protocol.cpp:294-307` | parsing throws exactly for a complete, well-formed head with a negative Content-Length no further below zero than the head is long |
| `ForeignHeads.ForeignParsed` | `src/rtsp_protocol.cpp:228-316` | any start line of three words, any lines `name:` with any number of spaces before the value, lines without a colon between them: each name has the value of its last line, CSeq and Session are read from theirs, the body is what Content-Length says, and what follows is left alone |
| `ForeignHeads.ForeignWaits` | `src/rtsp_protocol.cpp:294-304` | the same head waits exactly while fewer bytes than its Content-Length are behind it |
| `ForeignHeads.MalformedExactly` | `src/rtsp_protocol.cpp:244-265` | a first line is refused exactly when it has fewer than two spaces |
| `ForeignHeads.MethodExactly` | `src/rtsp_protocol.cpp:12-23` | which word is which method, and every other word none |
| `ForeignHeads.NumberRead` | `src/rtsp_protocol.cpp:253` | `atoi` skips white space and reads the digits up to the first other character |
| `ForeignHeads.NotANumber` | `src/rtsp_protocol.cpp:283` | a value that begins with neither white space, digit nor sign is read as 0 |
| `ForeignHeads.RangesKept` | `src/rtsp_protocol.cpp:298` | `atoll` stops at the ends of its range and `atoi` agrees with it in the low 32 bits |
| `ForeignHeads.CompactHeader` | `src/rtsp_protocol.cpp:275-283` | for instance `CSeq:7`, without a space, is number 7 |
| `RtspProtocol.ParseBuffer` | `src/rtsp_protocol.cpp:228-316` | the parser on the receive buffer computes `Parse` of its content and does not change it |
| `RtspProtocol.ParseFields` | `src/rtsp_protocol.cpp:267-292` | the header loop computes the fold of all header lines, the last of a name winning |
| `RtspProtocol.TakeBody` | `src/rtsp_protocol.cpp:294-315` | the body is delimited by Content-Length; too few bytes wait for more |
| `RtspProtocol.SerializeText` | `src/rtsp_protocol.cpp:197-224` | the writer's text is the lines of the message, an empty line and the body |
| `RtspProtocol.WriteFields` | `src/rtsp_protocol.cpp:208-211` | every header but CSeq is written, one line each, in the map's order |
| `RtspBuilders.ChannelsRoundTrip` | `src/rtsp_source.cpp:219-232` | any channel pair written into a Transport header reads back as the same pair |
| `NegotiationLaws.ChannelsRead` | `src/rtsp_session.cpp:163-170` | behind any text without `interleaved=` and in front of anything that is no digit, a pair reads as its numbers modulo 256 |
| `NegotiationLaws.ChannelsMissing` | `src/rtsp_session.cpp:163-166` | no pair is read exactly when there is no `interleaved=` with a dash somewhere behind it |
| `Deliverable.SourceRequestsGood` | `src/rtsp_protocol.cpp:50-111` | every request the source builds is well-formed, for every URL that fits a request line and every session id that fits a header, the empty one too |
| `Deliverable.SourceSetupGood` | `src/rtsp_source.cpp:156-167` | so is the SETUP with its replaced Transport header |
| `Deliverable.EveryRequestGood` | `src/rtsp_source.cpp:46-246` | in every run fed by parsed messages, whatever session ids they carry, each request the source ever sent is well-formed |
| `ParserLaws.ParsedSessionOk` | `src/rtsp_protocol.cpp:284-288` | a session id that was parsed fits a header again |
| `Deliverable.ReplyGood` | `src/rtsp_session.cpp:119-270` | every response the session builds to a request with such a URL and a CSeq in range is well-formed, so it survives the wire |
| `Rtp.BuiltParses` | `src/rtsp_protocol.cpp:320-391` | a built packet parses, with all its fields and its payload |
| `Rtp.ParsedRebuilds` | `src/rtsp_protocol.cpp:320-391` | a parsed packet without CSRC, extension and padding is rebuilt byte for byte |
| `Rtp.Partition` | `src/rtsp_protocol.cpp:320-366` | header, payload and stripped padding are the whole packet; the header size follows from CSRC count and extension length; padding never takes the whole payload |
| `Rtp.LaidOutParses` | `src/rtsp_protocol.cpp:320-366` | every packet laid out with any flags, CSRC list, extension and padding is read with every bit and field, the right header size, and the payload without the padding |
| `Rtp.ParsedIsLaidOut` | `src/rtsp_protocol.cpp:320-366` | and every packet that is accepted is laid out so |
| `Rtp.RtpPacket.Parse` | `src/rtsp_protocol.cpp:320-366` | the parsing object accepts exactly what `ParseRtp` accepts and then holds its fields |
| `Rtp.Build` | `src/rtsp_protocol.cpp:368-391` | the packet written in place is `BuildRtp` of the arguments |
| `Framing.ItemBounds` | `src/rtsp_source.cpp:107-130` | every turn of a drain loop consumes at least four bytes and no more than there are |
| `Framing.Front` | `src/rtsp_session.cpp:63-86` | one look at the buffer finds a complete frame, a complete message, or neither, as `NextItem` says |
| `Framing.ItemStable` | `src/rtsp_source.cpp:107-130` | what stands complete at the front stays so when more arrives |
| `Framing.DrainSplit` | `src/tcp_connection.cpp:106-114` | draining a first part and later the rest is draining all at once |
| `Framing.ChunkIndependence` | `src/tcp_connection.cpp:106-114` | for any number of cuts, the same events and the same leftover bytes |
| `Framing.DrainStops` | `src/rtsp_source.cpp:107-130` | the loop stops only at an incomplete, malformed or throwing head, and a second run does nothing |
| `Framing.BlocksForGood` | `src/rtsp_source.cpp:122-125` | a complete head stops the loop for good, whatever arrives later, exactly when it is blocked or throws |
| `Framing.FrameFits` | `src/rtsp_session.cpp:290-297` | a framed payload reads back as itself exactly when it is at most 65535 bytes long |
| `Framing.UniqueDecoding` | `src/rtsp_source.cpp:107-130` | frames and well-formed messages sent back to back drain to exactly their list, and what follows drains as if alone |
| `Framing.PrefixDecoding` | `src/rtsp_source.cpp:107-130` | of any part of such a stream, exactly the whole items come out and the rest waits |
| `Framing.SplitFrame` | `src/rtsp_session.cpp:296-297` | with an answer between header and payload the reader takes as many bytes as the header says from both together; the packet survives exactly when those are the payload |
| `Framing.SplitPacketIsLost` | `src/rtsp_session.cpp:296-297` | a packet of RTP version 2 never survives a response in between |
| `SplitPacket.SplitIsReachable` | `src/tcp_connection.cpp:42-53` | two threads can bring that about: the loop swaps between the two posts and answers a request in between |
| `EndToEnd.AnswerBetween` | `src/rtsp_session.cpp:286-297` | in any state of the whole relay with half of a packet given: after an answer in between every earlier item still arrives, and the packet exactly when its payload is a front part of answer and payload |
| `Source.PhaseFixesRequest` | `src/rtsp_source.cpp:46-105` | in every run, awaiting OPTIONS, DESCRIBE, SETUP or playing means `cseq_` is 1, 2, 3 or 4 and the last request sent is the matching one |
| `Source.StoppedStaysQuiet` | `src/rtsp_source.cpp:52-97` | after `stop` no client is created until `start`, whatever old timers and bytes still arrive |
| `Source.FramesDelivered` | `src/rtsp_source.cpp:132-140` | every frame is handed on once, in order, and counted; messages in between change nothing of that |
| `SourceLaws.LifeOfStep` | `src/rtsp_source.cpp:46-97` | what each step does to client, connection, phase and timers: a start makes a client, an alarm too unless the source is stopping, a 404 arms a retry, a close a reconnect unless stopping |
| `SourceLaws.LifeOfRun` | `src/rtsp_source.cpp:184-200` | in every run, exactly one client for each start and each effective alarm, one timer for each refusal and each loss, in order |
| `SourceLaws.StartConnects` | `src/rtsp_source.cpp:46-70` | after the first start there is a client, the only one, a connection can be reported, nothing has been sent and the channels are 0 and 1 |
| `SourceLaws.StepSends` | `src/rtsp_source.cpp:142-182` | a step sends exactly the requests noted for it: OPTIONS on a connection, the next request on a 200, TEARDOWN on a stop while connected |
| `SourceLaws.RunSends` | `src/rtsp_source.cpp:142-246` | in every run the requests sent are exactly those, in order, each written header by header: PLAY and TEARDOWN with the id held, the last non-empty one of a 200, SETUP with it unless empty |
| `SourceLaws.SessionArrives` | `src/rtsp_protocol.cpp:284-288` | the upstream reads in PLAY and TEARDOWN that id, up to its first semicolon |
| `SourceLaws.PhaseOfEvent` | `src/rtsp_source.cpp:184-246` | a 200 takes a waiting source one phase on; packets and other replies leave the whole negotiation alone |
| `SourceLaws.FramesCounted` | `src/rtsp_source.cpp:132-140` | packets are counted with and without a callback, and handed on only with one |
| `Source.RtspSource.StartPulling` | `src/rtsp_source.cpp:46-50` | starts connecting and may create a client |
| `Source.RtspSource.StopPulling` | `src/rtsp_source.cpp:52-62` | sends TEARDOWN only over a connected connection, then lets client and connection go |
| `Source.RtspSource.ConnectToUpstream` | `src/rtsp_source.cpp:64-97` | creates one client unless stopping |
| `Source.RtspSource.HandleConnect` | `src/rtsp_source.cpp:99-105` | restarts the numbering and sends OPTIONS |
| `Source.RtspSource.HandleClose` | `src/rtsp_source.cpp:81-94` | arms a reconnect unless stopping |
| `Source.RtspSource.HandleAlarm` | `src/rtsp_source.cpp:88-92` | reconnects; a 404 retry of a stopping source does nothing |
| `Source.RtspSource.HandleResponse` | `src/rtsp_source.cpp:184-246` | only a 200 moves the handshake on; a 404 arms a retry; other errors change nothing |
| `Source.RtspSource.HandleInterleavedData` | `src/rtsp_source.cpp:132-140` | counts the packet and hands it to the callback |
| `Source.RtspSource.HandleMessage` | `src/rtsp_source.cpp:107-130` | the loop handles exactly the events of `Drain`, in order, and leaves exactly its rest |
| `Source.RtspSource.HandleRead` | `src/tcp_connection.cpp:106-114` | chunk after chunk, appended and drained, does what one call on all bytes would do |
| `Session.PathOfUrl` | `src/rtsp_session.cpp:304-312` | the stream path of a URL is all that follows its authority, or the root |
| `Session.AnsweredInOrder` | `src/rtsp_session.cpp:98-117` | one response per parsed request, in the order of the requests, with the same CSeq |
| `Session.RtspSession.ProcessRequest` | `src/rtsp_session.cpp:98-117` | each method's handler changes state, sends its response and calls the manager as `OnRequest` says |
| `Session.RtspSession.HandleDescribe` | `src/rtsp_session.cpp:125-139` | answers with the stream's SDP, or 404 when there is none |
| `Session.RtspSession.HandleSetup` | `src/rtsp_session.cpp:141-238` | accepts interleaved or UDP transport, refuses a missing or other one with 461 |
| `NegotiationLaws.ChannelsAskedFor` | `src/rtsp_session.cpp:159-175` | for every state of a session and every octet pair behind `interleaved=`: TCP, exactly that pair stored, and answered |
| `NegotiationLaws.ChannelsKept` | `src/rtsp_session.cpp:159-175` | an `interleaved=` without a pair keeps the pair held, and answers it |
| `NegotiationLaws.ClientPortRead` | `src/rtsp_session.cpp:184-194` | the port behind `client_port=`, modulo 65536 |
| `NegotiationLaws.UdpSetup` | `src/rtsp_session.cpp:180-229` | a `client_port=` pair means UDP; answered with the server's ports, a 461 for port 0 and a 500 without sockets; the channels stay |
| `NegotiationLaws.NoTransport` | `src/rtsp_session.cpp:147-151` | without a Transport, or with one that names neither, a 461; the transport stays as it was |
| `NegotiationLaws.Answers` | `src/rtsp_session.cpp:240-270` | status, number and headers of the answer to each other method, text by text |
| `NegotiationLaws.DescribeAnswers` | `src/rtsp_session.cpp:125-139` | the SDP of the stream with type, base and session id, or 404 exactly when there is none; the phase is set in both cases |
| `NegotiationLaws.PathOf` | `src/rtsp_session.cpp:125-145` | DESCRIBE takes the path from its URL, SETUP only when there was none, others never |
| `NegotiationLaws.TrackSetupPlaysStream` | `src/rtsp_session.cpp:125-252` | after DESCRIBE of a stream and SETUP of one of its tracks, PLAY subscribes to the stream described |
| `NegotiationLaws.PlayPhase` | `src/rtsp_session.cpp:240-263` | PLAY changes nothing but the phase, OPTIONS, GET_PARAMETER and unknown methods nothing |
| `Session.RtspSession.CloseSession` | `src/rtsp_session.cpp:49-61` | closes once, and leaves the stream exactly when it was playing one |
| `Session.RtspSession.PushRtpData` | `src/rtsp_session.cpp:272-302` | a playing, connected TCP session sends four bytes of framing and the packet, and counts both |
| `Session.RtspSession.HandleRtspMessage` | `src/rtsp_session.cpp:63-90` | the loop answers exactly the requests among the events of `Drain`, in order, and leaves its rest |
| `Handshake.ArrivedItems` | `src/tcp_connection.cpp:106-114` | however the bytes of a pipe are cut, the receiver gets the items at its front, whole and in order |
| `Handshake.ChainedHandshake` | `src/rtsp_source.cpp:99-246` | in every run of a source against a session at most one request is under way, and a playing source and its session agree on channels, session id and SDP |
| `Handshake.OneInFlight` | `src/rtsp_source.cpp:142-174` | the request under way is the one sent last, with the current number, and no reply has begun |
| `Handshake.ExchangeAdvances` | `src/rtsp_source.cpp:207-246` | once the bytes under way are delivered, the handshake is one phase further, except after a DESCRIBE exactly when the server has no SDP for the path; then nothing is under way. When it has one, the source keeps that SDP |
| `Handshake.PlayingReachable` | `src/rtsp_source.cpp:46-246` | for every URL, session id and SDP there is a run from the first start to a source that plays with that SDP, and a session that plays too |
| `Handshake.RepliesAreNotMatched` | `src/rtsp_source.cpp:207-217` | two 200 replies to whatever requests move the source from OPTIONS to SETUP, with the second one's SDP |
| `ReplyMatching.NumberIgnored` | `src/rtsp_source.cpp:184-246` | the CSeq of a reply makes no difference to the source |
| `ReplyMatching.FollowsExactly` | `src/rtsp_source.cpp:184-246` | for every list of events on a connection, the source is step by step where a client that matches numbers would be, exactly when the first three 200 replies carry CSeq 1, 2 and 3 |
| `ReplyMatching.KeptReplies` | `src/rtsp_source.cpp:213-232` | the SDP kept is that of the second 200, the channels are those of the third, and stay as they were when it names no pair |
| `Connection.OutputConserved` | `src/tcp_connection.cpp:63-150` | for every pattern of writes, the wire and the queue together are all accepted bytes while the descriptor is open; the wire is always a front part of them |
| `Connection.ShutIsFinal` | `src/tcp_connection.cpp:97-104` | once SHUT_WR is out, every accepted byte is on the wire and nothing is ever accepted again |
| `Connection.SendDoes` | `src/tcp_connection.cpp:63-95` | on a connected connection: queued behind queued bytes, else what the socket takes is on the wire and the rest queued; a blocked or partial write keeps the connection, a failed one gives it up |
| `Connection.LostForGood` | `src/tcp_connection.cpp:160-168` | a connection given up accepts and writes nothing more, whatever comes |
| `Connection.GoneIsFinal` | `src/tcp_connection.cpp:152-158` | a close from the other side ends it for good: disconnected, no descriptor, nothing more accepted, whatever is queued stays unwritten |
| `Connection.FailedSendIsFinal` | `src/tcp_connection.cpp:80-84` | in every run after a failed write: disconnected, no descriptor, the wire unchanged, nothing later accepted |
| `Connection.FlushExactly` | `src/tcp_connection.cpp:126-140` | the write loop takes exactly as many bytes from the front of the queue as the socket takes, and gives the connection up exactly when a failure comes before the queue is empty |
| `Connection.WriteEventDoes` | `src/tcp_connection.cpp:126-150` | a write event on a failing socket gives the connection up; one on a socket that takes all brings every accepted byte onto the wire |
| `Connection.ShutdownCompletes` | `src/tcp_connection.cpp:97-104` | a shutdown stops writing at once when nothing is queued, else at the write event that empties the queue, not before |
| `Connection.TcpConnection.SendData` | `src/tcp_connection.cpp:63-95` | writes past nothing: with bytes queued it appends, else it writes and queues what the socket left |
| `Connection.TcpConnection.WriteEvent` | `src/tcp_connection.cpp:126-150` | writes from the queue until empty, blocked or broken; an emptied disconnecting connection stops writing |
| `Connection.TcpConnection.ShutdownConnection` | `src/tcp_connection.cpp:97-104` | turns sends away from now on and posts the task that may stop writing |
| `Connection.TcpConnection.RunShutdownTask` | `src/tcp_connection.cpp:99-103` | stops writing exactly when nothing is queued |
| `Connection.TcpConnection.HandleError` | `src/tcp_connection.cpp:160-168` | gives the descriptor up; what was written stays written |
| `TaskQueue.TasksConserved` | `src/event_loop.cpp:234-279` | in every interleaving of posters and the loop: executed, rest of the batch and pending tasks are the posted ones, in order |
| `TaskQueue.NextRoundRunsAll` | `src/event_loop.cpp:270-279` | whatever had been posted when the loop swapped has run, in order, once its batch is next empty |
| `TaskQueue.SendsReachLoop` | `src/tcp_connection.cpp:42-53` | while the connection stays connected, the sends of each thread reach `sendInLoop` once and in order, the rest waiting in the queue |
| `TaskQueue.OwnSendsAreImmediate` | `src/tcp_connection.cpp:42-46` | sends of the loop's own thread never wait behind the queue |
| `TaskQueue.BrokenEndsSends` | `src/tcp_connection.cpp:63-64` | once the connection breaks no thread's send gets through any more, those already posted included |
| `Timers.FiresOnTime` | `src/event_loop.cpp:299-317` | in every run, every firing happens in the first round at or past its due time, a periodic one a delay after the round before |
| `Timers.NeverEarly` | `src/event_loop.cpp:299-317` | firing k of a timer is never before its start plus k delays |
| `Timers.OneShot` | `src/event_loop.cpp:283-317` | a one-shot timer runs at most once, cancelled never, and uncancelled exactly when a round came at or past its expiry |
| `Timers.PeriodicMissesNothing` | `src/event_loop.cpp:299-317` | no round at or past the next due time passes a periodic timer by |
| `Timers.CancelStops` | `src/event_loop.cpp:293-297` | a timer cancelled while in the list never runs again |
| `Timers.CancelTooLate` | `src/event_loop.cpp:293-317` | cancelling a timer that the current round has taken out changes nothing |
| `Timers.CancelExactly` | `src/event_loop.cpp:293-317` | after being cancelled a timer never runs again, in any run, exactly when it was in the list, or over already, or in its callback and not periodic |
| `Timers.IdsAreUnique` | `src/event_loop.cpp:283-291` | an id names one timer for good, and its history only grows |
| `Loop.EventLoop.RunInLoop` | `src/event_loop.cpp:234-240` | puts the task behind all pending ones |
| `Loop.EventLoop.ProcessTasks` | `src/event_loop.cpp:270-279` | runs what was pending at the swap, in order; what is posted meanwhile waits for the next call |
| `Loop.EventLoop.AddTimer` | `src/event_loop.cpp:283-291` | returns an id never used before and adds the timer |
| `Loop.EventLoop.CancelTimer` | `src/event_loop.cpp:293-297` | takes the timer out of the list if it is there |
| `Loop.EventLoop.ProcessTimers` | `src/event_loop.cpp:299-317` | one call is one round of `Timers`, whatever its callbacks add and cancel, and ends with no timer in between |
| `Loop.EventLoop.CalcTimeout` | `src/event_loop.cpp:319-329` | 100 without timers; else in 0..1000, never past the nearest expiry, and no shorter than needed |
| `Relay.WithoutAllFilters` | `src/relay_manager.cpp:98-102` | removing a sink removes every entry of it and nothing else |
| `Relay.JoinLeave` | `src/relay_manager.cpp:74-107` | joining and leaving leaves the table as it was |
| `Relay.FanOutSafety` | `src/relay_manager.cpp:31-107` | in every run: a sink is a session playing that very stream, listed once; none is in two streams, a closed one in none; streams never exceed the limit |
| `TableLaws.SinksOfStep` | `src/relay_manager.cpp:31-107` | for every step and stream: whether it is known afterwards, and exactly its list of sinks; a new stream has none, PLAY appends, TEARDOWN and a lost connection remove, nothing else changes a list |
| `TableLaws.PlaySubscribes` | `src/rtsp_session.cpp:240-243` | after a PLAY on a known stream the session is a sink of it in every run, until it leaves or the stream is removed |
| `TableLaws.RemovedIsSilent` | `src/relay_manager.cpp:61-72` | a removed stream is gone in every run until it is added again, and its packets reach nobody |
| `TableLaws.OpenedFresh` | `src/rtsp_session.h:71-95` | a new player is no sink and has negotiated nothing: TCP, channels 0 and 1, no stream, nothing sent; all other sessions stay as they are |
| `TableLaws.NewPlayerServed` | `src/rtsp_session.cpp:125-301` | in any state of the relay, a new player that asks for a known stream, a channel pair and to play gets the stream's next packet once, whole, on that channel |
| `Relay.OrderIsNeeded` | `src/rtsp_session.cpp:125-252` | a request keeps this right exactly unless it is a DESCRIBE, SETUP or PLAY of a session that is a sink |
| `Relay.OrderSuffices` | `src/rtsp_session.cpp:125-252` | a client that keeps DESCRIBE and SETUP before one PLAY never makes such a request |
| `Relay.PlayTwiceDuplicates` | `src/rtsp_session.cpp:240-243` | a second PLAY lists the session once more, beside any other sinks, and every packet goes out to it twice |
| `Relay.DescribeWhilePlayingLeaks` | `src/rtsp_session.cpp:49-61` | a DESCRIBE while playing leaves the session a sink after its close |
| `Relay.LeakStays` | `src/rtsp_session.cpp:49-61` | such a session stays a sink in every run until the stream is removed |
| `Relay.FanOutCounts` | `src/relay_manager.cpp:177-180` | the fan-out gives each session the packet as often as it is listed |
| `Relay.RelayManager.AddStreamTo` | `src/relay_manager.cpp:31-59` | adds and starts a stream exactly when its path is new and there is room |
| `Relay.RelayManager.RemoveStream` | `src/relay_manager.cpp:61-72` | stops and forgets the stream, if there is one |
| `Relay.RelayManager.AddSinkTo` | `src/relay_manager.cpp:74-89` | appends the sink to a known stream's list |
| `Relay.RelayManager.RemoveSinkFrom` | `src/relay_manager.cpp:91-107` | removes every entry of the sink from that list |
| `Relay.RelayManager.OnRtpData` | `src/relay_manager.cpp:168-181` | every sink of the stream gets the packet as often as it is listed |
| `Relay.RelayManager.TotalSinks` | `src/relay_manager.cpp:199-207` | the number of memberships, counted as pairs of stream and place |
| `LockOrder.TraceRankedExactly` | `src/relay_manager.cpp:31-207` | an activity takes its mutexes in one fixed order and gives them back in reverse exactly when it is not a fan-out to a connection of the source's own loop |
| `LockOrder.NoDeadlock` | `src/relay_manager.cpp:168-181` | any threads, any activities with players on loops of their own, any schedule: while a thread has work left, some thread can go on |
| `LockOrder.FanOutAlone` | `src/tcp_connection.cpp:80-85` | a fan-out to connections of its own loop gets through exactly when none of them breaks on the way |
| `LockOrder.AlwaysGetsThrough` | `src/tcp_server.cpp:119-123` | a fan-out gets through for every outcome of its sends exactly when every player is served by another loop |
| `EndToEnd.PacketPosted` | `src/rtsp_session.cpp:286-301` | a packet of a stream adds to the player's posted sends exactly what the player is owed |
| `EndToEnd.Transparency` | `src/relay_manager.cpp:168-181` | for every chunking, interleaving and pattern of writes without a request between the two sends of a packet, the player's wire decodes to a front part of the packets owed, in order and on its channel, and of its answers; to all of them once nothing is posted, half given or queued |
| `NegotiationLaws.FramesOnChannel` | `src/rtsp_session.cpp:286-301` | while a player negotiates no more, every packet owed to it is on its channel |
| `NegotiationLaws.PacketsOnChannelAskedFor` | `src/rtsp_session.cpp:163-170` | in every run of the whole relay after a SETUP that asks for a pair, every packet owed is on the first channel of that pair |
| `WholeStream.UpstreamConserved` | `src/rtsp_source.cpp:107-140` | the items taken and those still complete in the buffer are the items of all upstream bytes |
| `WholeStream.TakenBytes` | `src/rtsp_source.cpp:107-130` | the bytes of the items taken come first, drain to exactly those items, and the buffer holds what came behind them |
| `WholeStream.CountersAgree` | `src/rtsp_session.cpp:299-300` | while a player stays subscribed its `pkts_sent_` grows with the source's `pkts_received_`, its `bytes_sent_` with `bytes_received_` and 4 per packet, and all packets are owed to it |
| `WholeStream.EveryFrameArrives` | `src/rtsp_source.cpp:107-140` | once all is taken and written, the player's wire decodes to what it was owed before and then every frame payload in the upstream's bytes since, unchanged |
| `WholeStream.FramesSoFar` | `src/rtsp_source.cpp:107-140` | and at every moment the frames on the player's wire are a front part of those owed before and then the upstream's |
| `WholeStream.ChainedRelays` | `src/rtsp_session.cpp:286-301` | when one relay's player is another relay's upstream, a player that joins the second one at any time decodes exactly the payloads the first one sent behind the bytes handled by then, however they are cut |

## Left out

- Sockets, epoll and kqueue, wakeups, `getaddrinfo`, file descriptors and platform branches: foreign I/O; reads, writes and connects are steps or parameters.
- `src/http_server.cpp`, `src/main.cpp`, `src/config.cpp`, `src/tcp_server.cpp`: routing, JSON, configuration and accepting repeat easier arguments. The empty stream path, which the HTTP side rejects (`src/main.cpp:65-72`), is excluded where streams are added.
- `src/tcp_client.cpp` and `parseUpstreamUrl`: connect retries and host names; the model has one step for an established connection.
- The UDP half of `handleSetup` and `onRtpData`: the answers are modelled with the ports as a parameter, the sockets and what goes through them are not.
- Object lifetime, raw `this` captures and memory order: regions under a lock are single steps, `RingBuffer` is sequential, and the stream object read in `onRtpData` between its two locks stays alive.
- Log output, `getStats`, `getAllStreamInfo` and the random choice of session ids, which are any eight hexadecimal digits.
- Wrap-around of the 64-bit counters, of millisecond clocks and timer ids, and of the 32-bit CSeq of a source after four billion requests.
- `hasWritten`, raw pointers and iterators of the buffers, and `ThreadSafeBuffer`, which is a `ByteBuffer` under a mutex (`LockOrder` has the mutex).
- Buffers of 2^31 bytes and more, where `find` truncates its result to `int`.
- A null payload pointer given to `RtpPacket::build`, and a ring of capacity 0.
- Calls between objects are logs: a session's sends and its calls of the manager, a source's requests, timers and delivered packets are fields that only grow. Who receives them is the business of `Relay`, `Handshake` and `EndToEnd`.
- RtspProtocol.ParseBuffer: `atoi` beyond the range of `int` is undefined in C++ and modelled as the usual truncation; the laws ask for a CSeq below 2^31. A Content-Length that wraps `size_t` is modelled as waiting for more, or as the exception that `std::string` throws.
- ParserLaws.RoundTripExactly: speaks of messages whose numbers are in that range. A Content-Length entry with a line break beside a body prints as several lines, and whether that round-trips depends on those lines.
- ParserLaws.ReprintRoundTrip: a CSeq of 2^31 or more is left out, because reading it back overflows `int`.
- Session.RtspSession.PushRtpData: what goes through a UDP socket, and the counters for it, are not modelled.
- Ring.RingBuffer.Read: a cursor set to a place that was never written stands for no position of the stream.
- Connection.OutputConserved: safety only. No callback for write events is ever registered (`src/tcp_connection.cpp:28`, `src/event_loop.cpp:184-192`), so a queue need not drain.
- Connection.TcpConnection.WriteEvent: the write outcomes are a finite list; a write event that would go on after the list is taken to block.
- EndToEnd.Transparency: runs in which no request of the player is handled between header and payload of one of its packets; `EndToEnd.AnswerBetween` says what happens otherwise. The two sends are posted in one step and run in two. A connection that breaks and the session that leaves because of it are two steps in any order.
- EndToEnd.Transparency: a player's requests have a URL without spaces and line breaks, as the parser delivers them, and a CSeq below 2^31; one player's bytes are followed, for any player.
- Handshake.ChainedHandshake: one connection at a time; a replaced connection is taken as silent, since a source cannot tell whose reply it reads (`Handshake.RepliesAreNotMatched`). Stopping the source is in `Source`, not in the joint machine.
- Session.RtspSession.HandleRtspMessage: what the manager answers is fixed during one call; a change in between is the same stream cut into two calls.
- LockOrder.NoDeadlock: the mutexes of players' and the source's output buffers, of streams, sinks and tasks; HTTP connections use the same locks below these.
